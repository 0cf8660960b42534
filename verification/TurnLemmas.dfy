/** How the public calls keep the invariant and meet their descriptions. */
module TurnLemmas {
  import opened Core
  import opened Budgets
  import opened Contexts
  import opened ContextLemmas
  import opened Turns

  lemma InvGood(w: World)
    requires Inv(w)
    ensures Good(w, {}, {})
  {
  }

  /** A turn that ends with nothing in transit restores the whole invariant. */
  lemma InvKept(w: World, v: World, env: Env)
    requires Inv(w) && Good(v, {}, {}) && Evolves(w, v, env) && KeepsNoLost(w, v)
    ensures Inv(v)
  {
    EvolvesEnded(w, v, env);
    forall h: nat | Live(v, h) && v.ctxs[h].owner < |v.scheds|
      ensures !v.scheds[v.ctxs[h].owner].failed
    {
      assert Live(w, h);
    }
    forall i: nat | i < |v.scheds| && v.scheds[i].reaped
      ensures v.scheds[i].records == map[]
    {
      assert v.scheds[i].records.Keys <= w.scheds[i].records.Keys;
    }
  }

  lemma OpenKeepsInv(w: World)
    requires Inv(w)
    ensures Inv(World(w.ctxs, w.scheds + [Sched(map[], [], 0, 0, 0, 0, 0, false, false, EMPTY_ACCOUNT)]))
  {
    var e := Sched(map[], [], 0, 0, 0, 0, 0, false, false, EMPTY_ACCOUNT);
    var v := World(w.ctxs, w.scheds + [e]);
    forall h: nat | h < |v.ctxs|
      ensures ShapeAt(v, h)
    {
      assert ShapeAt(w, h);
    }
    forall i: nat | i < |v.scheds|
      ensures SchedOk(v, i, {})
    {
      if i < |w.scheds| {
        assert SchedOk(w, i, {});
        OtherSchedOpen(w, v, i);
      } else {
        assert v.scheds[i] == e;
        forall slot
          ensures Holders(e.records, slot) == {}
        {
        }
        forall h: nat | h < |v.ctxs|
          ensures v.ctxs[h].owner != i
        {
          assert ShapeAt(w, h);
        }
      }
    }
  }

  lemma OtherSchedOpen(w: World, v: World, i: nat)
    requires i < |w.scheds| <= |v.scheds| && v.scheds[i] == w.scheds[i] && v.ctxs == w.ctxs
    requires SchedOk(w, i, {})
    ensures SchedOk(v, i, {})
  {
    forall r | r in v.scheds[i].records
      ensures RecordOk(v, i, {}, r)
    {
      assert RecordOk(w, i, {}, r);
    }
    assert QueueOk(v, i) && IdsOk(v, i);
  }

  function Flagged(s: Sched, reaped: bool): Sched {
    s.(failed := true, reaped := s.reaped || reaped)
  }

  lemma FlagGood(w: World, i: nat, reaped: bool)
    requires Good(w, {}, {}) && i < |w.scheds|
    ensures Good(WithSched(w, i, Flagged(w.scheds[i], reaped)), {}, {})
  {
    hide SchedOk, ShapeAt, Bystander;
    var v := WithSched(w, i, Flagged(w.scheds[i], reaped));
    ShapeKept(w, v);
    forall j: nat | j < |v.scheds|
      ensures SchedOk(v, j, {})
    {
      assert SchedOk(w, j, {});
      if j == i {
        FlagSched(w, i, reaped);
      } else {
        SameContexts(w, v, j);
        OtherSched(w, v, {}, {}, j);
      }
    }
  }

  lemma FlagSched(w: World, i: nat, reaped: bool)
    requires i < |w.scheds| && SchedOk(w, i, {})
    ensures SchedOk(WithSched(w, i, Flagged(w.scheds[i], reaped)), i, {})
  {
    hide Holders, HoldsLease, Balanced;
    forall r | r in w.scheds[i].records
      ensures RecordOk(WithSched(w, i, Flagged(w.scheds[i], reaped)), i, {}, r)
    {
      assert RecordOk(w, i, {}, r);
    }
  }

  lemma EndedByNothing(u: World, env: Env, tops: set<nat>, out: Outcome)
    ensures EndedBy(u, u, env, tops, out)
  {
  }

  lemma EndedByMore(u: World, v: World, w: World, env: Env, tops: set<nat>, out: Outcome, r: nat)
    requires Evolves(u, v, env) && Evolves(v, w, env) && Sane(v) && Sane(w)
    requires EndedBy(u, v, env, tops, out) && EndsOnly(v, w, env, Some(r), out)
    requires out.Failed? && r in tops
    ensures EndedBy(u, w, env, tops, out)
  {
    forall h: nat | Live(u, h) && Ended(w, h)
      ensures (w.ctxs[h].terminal.value == out && exists t :: t in tops && Under(u.ctxs, t, h))
           || WaitingRootFails(u, w, h, w.ctxs[h].terminal.value, env)
    {
      var o := w.ctxs[h].terminal.value;
      if Live(v, h) {
        assert MayEnd(v, w, h, o, env, Some(r), out);
        if WaitingRootFails(v, w, h, o, env) {
          EndLate(u, v, w, h, o, env);
        } else {
          UnderKept(u.ctxs, v.ctxs, r, h);
        }
      } else {
        assert CtxKept(v.ctxs[h], w.ctxs[h]);
        if WaitingRootFails(u, v, h, o, env) {
          InTurnLater(u, v, w, h, env);
        }
      }
    }
  }

  /** One more `finish` in the loop of `fail`. */
  lemma FailedOneMore(u: World, v: World, w: World, env: Env, tops: set<nat>, code: ErrorCode, r: nat)
    requires Good(v, {}, {}) && Good(w, {}, {}) && Evolves(u, v, env) && Evolves(v, w, env)
    requires KeepsNoLost(u, v) && KeepsNoLost(v, w)
    requires EndedBy(u, v, env, tops, Failed(code)) && EndsOnly(v, w, env, Some(r), Failed(code)) && r in tops
    ensures Evolves(u, w, env) && KeepsNoLost(u, w) && EndedBy(u, w, env, tops, Failed(code))
    ensures |w.ctxs| == |v.ctxs| && |w.scheds| == |v.scheds|
    ensures forall c: nat :: Ended(v, c) ==> Ended(w, c)
  {
    hide Good, Evolves, KeepsNoLost, EndedBy, EndsOnly, LiveCount;
    GoodSane(v, {}, {});
    GoodSane(w, {}, {});
    EndedByMore(u, v, w, env, tops, Failed(code), r);
    EvolvesTrans(u, v, w, env);
    NoLostCompose(u, v, w);
    EvolvesEnded(v, w, env);
  }

  lemma GoneEnded(u: World, v: World, i: nat, h: nat, env: Env)
    requires Evolves(u, v, env) && i < |u.scheds| && h !in v.scheds[i].records
    ensures h in u.scheds[i].records ==> Ended(v, h)
  {
    assert SchedKept(u, v, i, env);
  }

  lemma RecordsInRange(u: World, i: nat)
    requires Good(u, {}, {}) && i < |u.scheds|
    ensures forall r :: r in u.scheds[i].records ==> r < |u.ctxs| && u.ctxs[r].owner == i
  {
    assert SchedOk(u, i, {});
    forall r | r in u.scheds[i].records
      ensures r < |u.ctxs| && u.ctxs[r].owner == i
    {
      assert RecordOk(u, i, {}, r);
    }
  }

  lemma AllEndedWhenFailed(w: World, i: nat)
    requires Inv(w) && i < |w.scheds| && w.scheds[i].failed
    ensures forall r :: r in w.scheds[i].records ==> Ended(w, r)
  {
    RecordsInRange(w, i);
  }

  lemma FailedInv(w: World, u: World, v: World, i: nat, env: Env)
    requires Inv(w) && i < |w.scheds| && !w.scheds[i].failed
    requires u == WithSched(w, i, w.scheds[i].(failed := true))
    requires Good(v, {}, {}) && Evolves(u, v, env) && KeepsNoLost(u, v)
    requires forall r :: r in u.scheds[i].records ==> Ended(v, r)
    ensures Inv(v)
  {
    EvolvesEnded(u, v, env);
    assert SchedOk(w, i, {});
    forall h: nat | Live(v, h) && v.ctxs[h].owner < |v.scheds|
      ensures !v.scheds[v.ctxs[h].owner].failed
    {
      assert Live(w, h);
    }
    forall j: nat | j < |v.scheds| && v.scheds[j].reaped
      ensures v.scheds[j].records == map[]
    {
      assert v.scheds[j].records.Keys <= w.scheds[j].records.Keys;
    }
  }

  // ------------------------------------------------------------------ reaping

  /** Between the flags being set and the last record being released. */
  ghost predicate ReapProgress(w: World, v: World, i: nat, env: Env)
  {
    && i < |w.scheds|
    && |v.ctxs| == |w.ctxs| && |v.scheds| == |w.scheds|
    && (forall h: nat :: h < |w.ctxs| ==> CtxKept(w.ctxs[h], v.ctxs[h]))
    && (forall j: nat :: j < |w.scheds| && j != i ==> SchedKept(w, v, j, env) && (NoLost(w.scheds[j]) ==> NoLost(v.scheds[j])))
    && v.scheds[i].failed && v.scheds[i].reaped
    && v.scheds[i].counter == w.scheds[i].counter && v.scheds[i].offerCounter == w.scheds[i].offerCounter
    && (forall r :: r in v.scheds[i].records ==>
          r in w.scheds[i].records && v.scheds[i].records[r].lease == w.scheds[i].records[r].lease)
    && (forall r :: r in w.scheds[i].records ==> Ended(v, r))
    && LeasesKept(w.scheds[i], v.scheds[i])
    && EndedBy(w, v, env, w.scheds[i].records.Keys, Failed(UNAVAILABLE))
  }

  lemma ReapBegins(w: World, u: World, v: World, i: nat, env: Env)
    requires Inv(w) && i < |w.scheds|
    requires u == WithSched(w, i, Flagged(w.scheds[i], true))
    requires Evolves(u, v, env) && KeepsNoLost(u, v) && Good(v, {}, {})
    requires EndedBy(u, v, env, u.scheds[i].records.Keys, Failed(UNAVAILABLE))
    requires forall r :: r in u.scheds[i].records ==> Ended(v, r)
    ensures ReapProgress(w, v, i, env)
    ensures forall r :: r in v.scheds[i].records ==> Ended(v, r)
  {
    forall j: nat | j < |w.scheds|
      ensures SchedKept(u, v, j, env)
      ensures j != i ==> SchedKept(w, v, j, env) && (NoLost(w.scheds[j]) ==> NoLost(v.scheds[j]))
    {
      assert SchedKept(u, v, j, env);
      if j != i {
        ReapOther(w, u, v, i, j, env);
      }
    }
    forall r | r in v.scheds[i].records
      ensures RecordKept(u, i, r, v.scheds[i].records[r], env)
    {
    }
    forall h: nat | Live(w, h) && Ended(v, h)
      ensures var o := v.ctxs[h].terminal.value;
        (o == Failed(UNAVAILABLE) && exists t :: t in w.scheds[i].records.Keys && Under(w.ctxs, t, h))
        || WaitingRootFails(w, v, h, o, env)
    {
      assert Live(u, h);
    }
  }

  lemma ReapOther(w: World, u: World, v: World, i: nat, j: nat, env: Env)
    requires i < |w.scheds| && j < |w.scheds| == |v.scheds| && j != i
    requires u == WithSched(w, i, Flagged(w.scheds[i], true))
    requires SchedKept(u, v, j, env)
    ensures SchedKept(w, v, j, env)
  {
    forall r | r in v.scheds[j].records
      ensures RecordKept(w, j, r, v.scheds[j].records[r], env)
    {
      assert RecordKept(u, j, r, v.scheds[j].records[r], env);
    }
  }

  lemma RecordOwner(v: World, i: nat, h: nat)
    requires Good(v, {}, {}) && i < |v.scheds| && h in v.scheds[i].records
    ensures h < |v.ctxs| && v.ctxs[h].owner == i && RecordOk(v, i, {}, h)
  {
    assert SchedOk(v, i, {});
  }

  lemma ReapDrops(w: World, v: World, i: nat, h: nat, env: Env)
    requires ReapProgress(w, v, i, env) && h in v.scheds[i].records && Good(v, {}, {})
    ensures ReapProgress(w, Dropped(v, h), i, env)
    ensures Dropped(v, h).scheds[i].records == v.scheds[i].records - {h}
    ensures forall r: nat :: Ended(v, r) ==> Ended(Dropped(v, h), r)
  {
    hide Good, Evolves, EndedBy, SchedKept, LeasesKept, RecordOk, Holders, Release, CtxKept;
    RecordOwner(v, i, h);
    RecordLease(v, {}, h, i);
    var x := Dropped(v, h);
    ReapDropsEnds(w, v, i, h, env);
    ReapDropsLeases(w, v, i, h, env);
    forall j: nat | j < |w.scheds| && j != i
      ensures SchedKept(w, x, j, env)
    {
      ReapDropsOther(w, v, x, j, env);
    }
  }

  lemma ReapDropsOther(w: World, v: World, x: World, j: nat, env: Env)
    requires j < |w.scheds| == |v.scheds| == |x.scheds| && SchedKept(w, v, j, env)
    requires x.scheds[j] == v.scheds[j] && x.ctxs == v.ctxs
    ensures SchedKept(w, x, j, env)
  {
    forall r | r in x.scheds[j].records
      ensures RecordKept(w, j, r, x.scheds[j].records[r], env)
    {
    }
  }

  lemma LeasesKeptDrop(s: Sched, t: Sched, h: nat)
    requires LeasesKept(s, t) && LeasesOk(t)
    requires h in s.records && h in t.records && t.records[h].lease == s.records[h].lease < |t.account.leases|
    requires forall r :: r in t.records ==> r in s.records && t.records[r].lease == s.records[r].lease
    ensures LeasesKept(s, DropRecord(t, h))
  {
    DropLeases(t, h);
    assert HoldsLease(s.records, t.records[h].lease);
  }

  lemma ReapDropsLeases(w: World, v: World, i: nat, h: nat, env: Env)
    requires ReapProgress(w, v, i, env) && h in v.scheds[i].records && Good(v, {}, {})
    requires h < |v.ctxs| && v.ctxs[h].owner == i && v.scheds[i].records[h].lease < |v.scheds[i].account.leases|
    ensures LeasesKept(w.scheds[i], Dropped(v, h).scheds[i])
  {
    hide LeasesKept, LeasesOk, DropRecord, RecordOk, EndedBy;
    assert SchedOk(v, i, {});
    LeasesKeptDrop(w.scheds[i], v.scheds[i], h);
  }

  lemma ReapDropsEnds(w: World, v: World, i: nat, h: nat, env: Env)
    requires ReapProgress(w, v, i, env) && h in v.scheds[i].records && Good(v, {}, {})
    requires h < |v.ctxs| && v.ctxs[h].owner == i && v.scheds[i].records[h].lease < |v.scheds[i].account.leases|
    ensures EndedBy(w, Dropped(v, h), env, w.scheds[i].records.Keys, Failed(UNAVAILABLE))
  {
    hide Good, Under, RootFailure, SchedKept, Release;
    var x := Dropped(v, h);
    WithoutIs(v.scheds[i].queue, h);
    forall k: nat | Live(w, k) && Ended(x, k)
      ensures var o := x.ctxs[k].terminal.value;
        (o == Failed(UNAVAILABLE) && exists t :: t in w.scheds[i].records.Keys && Under(w.ctxs, t, k))
        || WaitingRootFails(w, x, k, o, env)
    {
      var o := v.ctxs[k].terminal.value;
      if WaitingRootFails(w, v, k, o, env) {
        assert InTurn(w, v, k);
      }
    }
  }

  lemma QueueNeedsRecords(w: World, i: nat)
    requires i < |w.scheds| && QueueOk(w, i)
    ensures w.scheds[i].queue == [] || exists r :: r in w.scheds[i].records
  {
    if w.scheds[i].queue != [] {
      assert w.scheds[i].queue[0] in w.scheds[i].records;
    }
  }

  lemma ReapDone(w: World, v: World, i: nat, env: Env)
    requires Inv(w) && Good(v, {}, {}) && ReapProgress(w, v, i, env)
    requires forall r :: r in v.scheds[i].records ==> |v.ctxs| <= r
    requires forall r :: r in v.scheds[i].records ==> r < |v.ctxs|
    ensures Inv(v) && ReapTurn(w, v, i, env)
  {
    var t := v.scheds[i];
    assert t.records == map[];
    assert SchedOk(v, i, {});
    forall slot
      ensures Holders(t.records, slot) == {}
    {
    }
    QueueNeedsRecords(v, i);
    forall h: nat | Live(v, h) && v.ctxs[h].owner < |v.scheds|
      ensures !v.scheds[v.ctxs[h].owner].failed
    {
      assert Live(w, h);
      var j := v.ctxs[h].owner;
      if j != i {
        assert SchedKept(w, v, j, env);
      }
      assert j == i ==> h in t.records;
    }
    forall j: nat | j < |v.scheds|
      ensures v.scheds[j].reaped ==> v.scheds[j].records == map[]
      ensures NoLost(v.scheds[j])
    {
      if j != i {
        assert SchedKept(w, v, j, env);
        forall r | r in v.scheds[j].records
          ensures r in w.scheds[j].records
        {
          assert RecordKept(w, j, r, v.scheds[j].records[r], env);
        }
        assert v.scheds[j].records.Keys <= w.scheds[j].records.Keys;
      }
    }
  }

  // ---------------------------------------------------------------- admission

  lemma EnrollShape(w: World, i: nat, q: Request, env: Env)
    requires Inv(w) && i < |w.scheds|
    requires q.parent.Some? ==> q.parent.value < |w.ctxs| && w.ctxs[q.parent.value].resolved
    requires AdmitError(w, i, q, env).None?
    ensures Shape(Enrolled(w, i, q, env.now))
  {
    var e := Enrolled(w, i, q, env.now);
    forall h: nat | h < |e.ctxs|
      ensures ShapeAt(e, h)
    {
      if h < |w.ctxs| {
        assert ShapeAt(w, h);
      } else if q.parent.Some? {
        assert ShapeAt(w, q.parent.value);
      }
    }
  }

  lemma EnrollTree(w: World, i: nat, q: Request, env: Env)
    requires Inv(w) && i < |w.scheds|
    requires q.parent.Some? ==> q.parent.value < |w.ctxs| && w.ctxs[q.parent.value].resolved
    requires AdmitError(w, i, q, env).None?
    ensures TreeOk(Enrolled(w, i, q, env.now), {})
  {
    var e := Enrolled(w, i, q, env.now);
    var n := |w.ctxs|;
    forall p: nat, k: nat | p < |e.ctxs|
      ensures k in e.ctxs[p].children <==> k < |e.ctxs| && e.ctxs[k].parent == Some(p) && (Live(e, k) || k in {})
    {
      if p < n {
        assert k in w.ctxs[p].children <==> k < n && w.ctxs[k].parent == Some(p) && (Live(w, k) || k in {});
      } else if k < n {
        assert ShapeAt(w, k);
      }
    }
  }

  lemma HoldersEnroll(records: map<nat, Record>, h: nat, lease: nat)
    requires h !in records
    ensures forall slot :: Holders(records[h := Record(None, false, None, lease)], slot) == Holders(records, slot)
  {
  }

  lemma EnrollRecord(w: World, i: nat, q: Request, env: Env, r: nat)
    requires i < |w.scheds| && (q.parent.Some? ==> q.parent.value < |w.ctxs|)
    requires AdmitError(w, i, q, env).None?
    requires r in Enrolled(w, i, q, env.now).scheds[i].records
    requires r != |w.ctxs| ==> r in w.scheds[i].records && RecordOk(w, i, {}, r)
    ensures RecordOk(Enrolled(w, i, q, env.now), i, {|w.ctxs|}, r)
  {
    ReserveLeases(w.scheds[i].account, q.bytes, q.purpose == Lifecycle);
  }

  lemma EnrollSched(w: World, i: nat, q: Request, env: Env)
    requires Inv(w) && i < |w.scheds|
    requires q.parent.Some? ==> q.parent.value < |w.ctxs| && w.ctxs[q.parent.value].resolved
    requires AdmitError(w, i, q, env).None? && Reserve(w.scheds[i].account, q.bytes, q.purpose == Lifecycle).Ok?
    ensures SchedOk(Enrolled(w, i, q, env.now), i, {|w.ctxs|})
    ensures |w.ctxs| !in w.scheds[i].records
    ensures forall k: nat :: k < |w.scheds[i].queue| ==> w.scheds[i].queue[k] < |w.ctxs|
    ensures forall r :: r in Holders(w.scheds[i].records, OrdinarySlot) ==> r < |w.ctxs|
  {
    hide LeasesOk, Balanced, CountsOk, Holders, RecordOk, IdsOk, AdmitError, Reserve;
    var e := Enrolled(w, i, q, env.now);
    var s, t, h := w.scheds[i], e.scheds[i], |w.ctxs|;
    assert SchedOk(w, i, {});
    RecordsInRange(w, i);
    HoldersEnroll(s.records, h, |s.account.leases|);
    HoldersInRange(w, i);
    forall r | r in t.records
      ensures RecordOk(e, i, {h}, r)
    {
      EnrollRecord(w, i, q, env, r);
    }
    EnrollLeases(w, i, q, env);
    EnrollIds(w, i, q, env);
    EnrollQueue(w, i, q, env);
    assert CountsOk(t) by {
      SameCounts(s, t);
    }
  }

  lemma EnrollQueue(w: World, i: nat, q: Request, env: Env)
    requires i < |w.scheds| && QueueOk(w, i)
    requires q.parent.Some? ==> q.parent.value < |w.ctxs|
    requires Reserve(w.scheds[i].account, q.bytes, q.purpose == Lifecycle).Ok?
    requires |w.ctxs| !in w.scheds[i].records
    ensures QueueOk(Enrolled(w, i, q, env.now), i)
  {
    hide Reserve, Deadline, Holders;
    var s, e := w.scheds[i], Enrolled(w, i, q, env.now);
    var h, lease := |w.ctxs|, |s.account.leases|;
    HoldersEnroll(s.records, h, lease);
    assert e.scheds[i].records == s.records[h := Record(None, false, None, lease)];
    assert Holders(e.scheds[i].records, OrdinarySlot) == Holders(s.records, OrdinarySlot);
    assert e.scheds[i].queue == s.queue;
    forall k: nat | k < |s.queue|
      ensures s.queue[k] != h && e.ctxs[s.queue[k]].parent == w.ctxs[s.queue[k]].parent
      ensures e.ctxs[s.queue[k]].purpose == w.ctxs[s.queue[k]].purpose
    {
    }
  }

  lemma EnrollIds(w: World, i: nat, q: Request, env: Env)
    requires i < |w.scheds| && (q.parent.Some? ==> q.parent.value < |w.ctxs|)
    requires Reserve(w.scheds[i].account, q.bytes, q.purpose == Lifecycle).Ok? && IdsOk(w, i)
    ensures IdsOk(Enrolled(w, i, q, env.now), i)
  {
  }

  lemma SameCounts(s: Sched, t: Sched)
    requires CountsOk(s) && forall slot :: Holders(t.records, slot) == Holders(s.records, slot)
    requires t.ordinary == s.ordinary && t.nested == s.nested && t.lifecycle == s.lifecycle
    ensures CountsOk(t)
  {
  }

  lemma HoldersInRange(w: World, i: nat)
    requires i < |w.scheds| && forall r :: r in w.scheds[i].records ==> r < |w.ctxs| && w.ctxs[r].owner == i
    ensures forall slot, r :: r in Holders(w.scheds[i].records, slot) ==> r < |w.ctxs|
  {
  }

  lemma ReserveLeases(a: Account, bytes: int, control: bool)
    requires Reserve(a, bytes, control).Ok?
    ensures 0 < bytes
    ensures Reserve(a, bytes, control).value.leases == a.leases + [Lease(bytes, control, false)]
  {
  }

  lemma EnrollLeases(w: World, i: nat, q: Request, env: Env)
    requires i < |w.scheds| && SchedOk(w, i, {}) && |w.ctxs| !in w.scheds[i].records
    requires q.parent.Some? ==> q.parent.value < |w.ctxs|
    requires Reserve(w.scheds[i].account, q.bytes, q.purpose == Lifecycle).Ok?
    ensures LeasesOk(Enrolled(w, i, q, env.now).scheds[i])
  {
    var s := w.scheds[i];
    ReserveKeepsBalance(s.account, q.bytes, q.purpose == Lifecycle);
    assert forall r :: r in s.records ==> RecordOk(w, i, {}, r);
  }

  lemma EnrollOther(w: World, i: nat, q: Request, env: Env, j: nat)
    requires Inv(w) && i < |w.scheds| && j < |w.scheds| && j != i
    requires q.parent.Some? ==> q.parent.value < |w.ctxs|
    requires Reserve(w.scheds[i].account, q.bytes, q.purpose == Lifecycle).Ok?
    ensures SchedOk(Enrolled(w, i, q, env.now), j, {|w.ctxs|})
  {
    hide SchedOk, Shape, TreeOk, Reserve;
    assert SchedOk(w, j, {});
    OtherSched(w, Enrolled(w, i, q, env.now), {}, {|w.ctxs|}, j);
  }

  lemma EnrollGood(w: World, i: nat, q: Request, env: Env)
    requires Inv(w) && i < |w.scheds|
    requires q.parent.Some? ==> q.parent.value < |w.ctxs| && w.ctxs[q.parent.value].resolved
    requires AdmitError(w, i, q, env).None?
    ensures Good(Enrolled(w, i, q, env.now), {}, {|w.ctxs|})
  {
    var e := Enrolled(w, i, q, env.now);
    EnrollShape(w, i, q, env);
    EnrollTree(w, i, q, env);
    forall j: nat | j < |e.scheds|
      ensures SchedOk(e, j, {|w.ctxs|})
    {
      if j == i {
        EnrollSched(w, i, q, env);
      } else {
        EnrollOther(w, i, q, env, j);
      }
    }
  }

  /** Nobody is overtaken: an ordinary slot is free only when nobody waits. */
  lemma EnrollStartable(w: World, i: nat, q: Request, env: Env)
    requires Inv(w) && i < |w.scheds|
    requires q.parent.Some? ==> q.parent.value < |w.ctxs| && w.ctxs[q.parent.value].resolved
    requires AdmitError(w, i, q, env).None?
    ensures FreeSlot(w.scheds[i], q.purpose, q.parent.Some?).Some? ==>
      Startable(Enrolled(w, i, q, env.now), i, |w.ctxs|, FreeSlot(w.scheds[i], q.purpose, q.parent.Some?).value)
    ensures FreeSlot(w.scheds[i], q.purpose, q.parent.Some?) == Some(OrdinarySlot) ==> w.scheds[i].queue == []
  {
    EnrollSched(w, i, q, env);
    assert NoLost(w.scheds[i]);
    assert forall k: nat :: k < |w.scheds[i].queue| ==> w.scheds[i].queue[k] != |w.ctxs|;
  }

  lemma QueuedInv(w: World, i: nat, q: Request, env: Env)
    requires Inv(w) && i < |w.scheds|
    requires q.parent.Some? ==> q.parent.value < |w.ctxs| && w.ctxs[q.parent.value].resolved
    requires AdmitError(w, i, q, env).None? && FreeSlot(w.scheds[i], q.purpose, q.parent.Some?).None?
    ensures Inv(Queued(Enrolled(w, i, q, env.now), i, |w.ctxs|))
  {
    hide LeasesOk, CountsOk, Holders;
    var h := |w.ctxs|;
    var e := Enrolled(w, i, q, env.now);
    var v := Queued(e, i, h);
    EnrollGood(w, i, q, env);
    EnrollSched(w, i, q, env);
    ShapeKept(e, v);
    forall j: nat | j < |v.scheds|
      ensures SchedOk(v, j, {})
    {
      assert SchedOk(e, j, {h});
      if j == i {
        QueuedSched(w, i, q, env);
      } else {
        NotElsewhere(e, {h}, h, j);
        OtherSched(e, v, {h}, {}, j);
      }
    }
    NoLostEnrolled(w, i, q, env);
  }

  lemma NoLostEnrolled(w: World, i: nat, q: Request, env: Env)
    requires Inv(w) && i < |w.scheds|
    requires q.parent.Some? ==> q.parent.value < |w.ctxs|
    requires Reserve(w.scheds[i].account, q.bytes, q.purpose == Lifecycle).Ok?
    requires !w.scheds[i].failed
    ensures
      var e := Enrolled(w, i, q, env.now);
      && (forall j: nat :: j < |e.scheds| ==> NoLost(e.scheds[j]))
      && (forall h: nat :: Live(e, h) && e.ctxs[h].owner < |e.scheds| ==> !e.scheds[e.ctxs[h].owner].failed)
      && (forall j: nat :: j < |e.scheds| && e.scheds[j].reaped ==> e.scheds[j].records == map[])
      && w.scheds[i].ordinary <= 4
  {
    var e := Enrolled(w, i, q, env.now);
    assert SchedOk(w, i, {});
    forall h: nat | Live(e, h) && e.ctxs[h].owner < |e.scheds|
      ensures !e.scheds[e.ctxs[h].owner].failed
    {
      assert h < |w.ctxs| ==> Live(w, h);
    }
  }

  lemma QueuedSched(w: World, i: nat, q: Request, env: Env)
    requires Inv(w) && i < |w.scheds|
    requires q.parent.Some? ==> q.parent.value < |w.ctxs| && w.ctxs[q.parent.value].resolved
    requires AdmitError(w, i, q, env).None? && FreeSlot(w.scheds[i], q.purpose, q.parent.Some?).None?
    ensures SchedOk(Queued(Enrolled(w, i, q, env.now), i, |w.ctxs|), i, {})
  {
    hide LeasesOk, CountsOk, RecordOk, QueueOk, IdsOk;
    var h := |w.ctxs|;
    var e := Enrolled(w, i, q, env.now);
    var v := Queued(e, i, h);
    EnrollSched(w, i, q, env);
    forall r | r in v.scheds[i].records
      ensures RecordOk(v, i, {}, r)
    {
      assert RecordOk(e, i, {h}, r);
      QueuedRecord(e, v, i, h, r);
    }
    QueuedQueue(w, i, q, env);
    QueuedIds(e, v, i);
    assert LeasesOk(v.scheds[i]) by {
      SameLeases(e.scheds[i], v.scheds[i]);
    }
    assert CountsOk(v.scheds[i]) by {
      SameCounts(e.scheds[i], v.scheds[i]);
    }
  }

  /** The newcomer is a root, is not lifecycle work and goes behind everyone. */
  lemma QueuedQueue(w: World, i: nat, q: Request, env: Env)
    requires i < |w.scheds|
    requires q.parent.Some? ==> q.parent.value < |w.ctxs|
    requires AdmitError(w, i, q, env).None? && FreeSlot(w.scheds[i], q.purpose, q.parent.Some?).None?
    requires QueueOk(Enrolled(w, i, q, env.now), i)
    requires |w.ctxs| !in w.scheds[i].records
    requires forall k: nat :: k < |w.scheds[i].queue| ==> w.scheds[i].queue[k] < |w.ctxs|
    requires forall r :: r in Holders(w.scheds[i].records, OrdinarySlot) ==> r < |w.ctxs|
    ensures QueueOk(Queued(Enrolled(w, i, q, env.now), i, |w.ctxs|), i)
  {
    hide Liveness, Deadline, Holders;
    var s, e := w.scheds[i], Enrolled(w, i, q, env.now);
    var h, lease := |w.ctxs|, |s.account.leases|;
    HoldersEnroll(s.records, h, lease);
    assert e.scheds[i].records == s.records[h := Record(None, false, None, lease)];
    assert Holders(e.scheds[i].records, OrdinarySlot) == Holders(s.records, OrdinarySlot);
    assert e.scheds[i].queue == s.queue;
    assert e.ctxs[h].parent == None && e.ctxs[h].purpose != Lifecycle;
  }

  lemma QueuedIds(e: World, v: World, i: nat)
    requires i < |e.scheds| && i < |v.scheds| && v.ctxs == e.ctxs && IdsOk(e, i)
    requires v.scheds[i] == e.scheds[i].(queue := v.scheds[i].queue)
    ensures IdsOk(v, i)
  {
  }

  lemma SameLeases(s: Sched, t: Sched)
    requires LeasesOk(s) && t.records == s.records && t.account == s.account
    ensures LeasesOk(t)
  {
  }

  lemma QueuedRecord(e: World, v: World, i: nat, h: nat, r: nat)
    requires i < |e.scheds| && v == Queued(e, i, h) && !e.scheds[i].failed
    requires r in e.scheds[i].records && RecordOk(e, i, {h}, r)
    requires r == h ==> Live(e, r)
    ensures RecordOk(v, i, {}, r)
  {
    assert h in v.scheds[i].queue;
    assert forall x :: x in e.scheds[i].queue ==> x in v.scheds[i].queue;
  }

  lemma GrantedInv(w: World, i: nat, q: Request, env: Env, slot: Slot)
    requires Inv(w) && i < |w.scheds|
    requires q.parent.Some? ==> q.parent.value < |w.ctxs| && w.ctxs[q.parent.value].resolved
    requires AdmitError(w, i, q, env).None? && FreeSlot(w.scheds[i], q.purpose, q.parent.Some?) == Some(slot)
    requires Good(Admitted(Enrolled(w, i, q, env.now), |w.ctxs|, slot), {}, {})
    ensures Inv(Admitted(Enrolled(w, i, q, env.now), |w.ctxs|, slot))
  {
    hide Good, Enrolled;
    var e := Enrolled(w, i, q, env.now);
    EnrolledIs(w, i, q, env);
    EnrollStartable(w, i, q, env);
    NoLostEnrolled(w, i, q, env);
    var v := Admitted(e, |w.ctxs|, slot);
    forall h: nat | Live(v, h) && v.ctxs[h].owner < |v.scheds|
      ensures !v.scheds[v.ctxs[h].owner].failed
    {
      assert Live(e, h);
    }
  }

  lemma EnrolledIs(w: World, i: nat, q: Request, env: Env)
    requires i < |w.scheds|
    requires q.parent.Some? ==> q.parent.value < |w.ctxs|
    requires AdmitError(w, i, q, env).None?
    ensures
      var e := Enrolled(w, i, q, env.now);
      && |e.ctxs| == |w.ctxs| + 1 && |e.scheds| == |w.scheds|
      && e.ctxs[|w.ctxs|].owner == i
      && |w.ctxs| in e.scheds[i].records
      && e.scheds[i].queue == w.scheds[i].queue
      && !e.scheds[i].failed
      && Live(e, |w.ctxs|)
  {
  }

  lemma RefusedInv(w: World, i: nat, q: Request, env: Env, v: World, later: Env)
    requires Inv(w) && i < |w.scheds|
    requires q.parent.Some? ==> q.parent.value < |w.ctxs|
    requires AdmitError(w, i, q, env).None?
    requires var e := Enrolled(w, i, q, env.now); Evolves(e, v, later) && KeepsNoLost(e, v)
    requires Good(v, {}, {})
    ensures Inv(v)
  {
    hide Good, Enrolled, Evolves;
    var e := Enrolled(w, i, q, env.now);
    NoLostEnrolled(w, i, q, env);
    EvolvesEnded(e, v, later);
    forall h: nat | Live(v, h) && v.ctxs[h].owner < |v.scheds|
      ensures !v.scheds[v.ctxs[h].owner].failed
    {
      assert Ended(e, h) ==> Ended(v, h);
    }
    forall j: nat | j < |v.scheds| && v.scheds[j].reaped
      ensures v.scheds[j].records == map[]
    {
      assert v.scheds[j].records.Keys <= e.scheds[j].records.Keys;
    }
  }

  // ------------------------------------------------------ offers and their acks

  lemma OfferedGood(w: World, i: nat, c: nat, nonce: nat)
    requires Inv(w) && i < |w.scheds| && c in w.scheds[i].records && c < |w.ctxs|
    requires w.scheds[i].records[c].admitted && w.ctxs[c].endpoint.None?
    ensures Inv(Offered(w, i, c, nonce))
  {
    var v := Offered(w, i, c, nonce);
    assert SchedOk(w, i, {});
    assert RecordOk(w, i, {}, c);
    OfferedShape(w, v, c);
    forall j: nat | j < |v.scheds|
      ensures SchedOk(v, j, {}) && NoLost(v.scheds[j])
    {
      OfferedSched(w, i, c, nonce, j);
    }
    forall h: nat | Live(v, h) && v.ctxs[h].owner < |v.scheds|
      ensures !v.scheds[v.ctxs[h].owner].failed
    {
      assert Live(w, h);
    }
  }

  lemma OfferedShape(w: World, v: World, c: nat)
    requires Shape(w) && TreeOk(w, {}) && c < |w.ctxs| && |v.scheds| == |w.scheds|
    requires exists e :: v.ctxs == w.ctxs[c := w.ctxs[c].(endpoint := e)]
    ensures Shape(v) && TreeOk(v, {})
  {
    forall h: nat | h < |v.ctxs|
      ensures ShapeAt(v, h)
    {
      assert ShapeAt(w, h);
    }
    forall p: nat, k: nat | p < |v.ctxs|
      ensures k in v.ctxs[p].children <==> k < |v.ctxs| && v.ctxs[k].parent == Some(p) && (Live(v, k) || k in {})
    {
      assert k in w.ctxs[p].children <==> k < |w.ctxs| && w.ctxs[k].parent == Some(p) && (Live(w, k) || k in {});
    }
  }

  lemma HoldersSameSlot(records: map<nat, Record>, c: nat, rec: Record)
    requires c in records && rec.slot == records[c].slot
    ensures forall slot :: Holders(records[c := rec], slot) == Holders(records, slot)
  {
  }

  lemma OfferedRecord(w: World, i: nat, c: nat, nonce: nat, j: nat, r: nat)
    requires i < |w.scheds| && c in w.scheds[i].records && c < |w.ctxs| && w.ctxs[c].owner == i
    requires w.scheds[i].records[c].admitted && j < |w.scheds|
    requires r in w.scheds[j].records && RecordOk(w, j, {}, r)
    ensures RecordOk(Offered(w, i, c, nonce), j, {}, r)
  {
  }

  lemma OfferedIds(w: World, i: nat, c: nat, nonce: nat, j: nat)
    requires i < |w.scheds| && c in w.scheds[i].records && c < |w.ctxs| && w.ctxs[c].owner == i
    requires w.ctxs[c].endpoint.None? && j < |w.scheds| && IdsOk(w, j)
    ensures IdsOk(Offered(w, i, c, nonce), j)
  {
  }

  lemma OfferedLeases(s: Sched, c: nat, offer: Option<nat>, n: nat)
    requires LeasesOk(s) && c in s.records
    ensures LeasesOk(s.(offerCounter := n, records := s.records[c := s.records[c].(offer := offer)]))
  {
  }

  lemma OfferedSched(w: World, i: nat, c: nat, nonce: nat, j: nat)
    requires Inv(w) && i < |w.scheds| && c in w.scheds[i].records && c < |w.ctxs| && w.ctxs[c].owner == i
    requires w.scheds[i].records[c].admitted && w.ctxs[c].endpoint.None? && j < |w.scheds|
    ensures SchedOk(Offered(w, i, c, nonce), j, {}) && NoLost(Offered(w, i, c, nonce).scheds[j])
  {
    hide CountsOk, Holders, Balanced, RecordOk, IdsOk, QueueOk, LeasesOk;
    var v := Offered(w, i, c, nonce);
    assert SchedOk(w, j, {});
    HoldersSameSlot(w.scheds[i].records, c, w.scheds[i].records[c].(offer := Some(nonce)));
    forall r | r in v.scheds[j].records
      ensures RecordOk(v, j, {}, r)
    {
      OfferedRecord(w, i, c, nonce, j, r);
    }
    QueueSame(w, v, j);
    OfferedIds(w, i, c, nonce, j);
    assert SchedOk(w, i, {});
    OfferedLeases(w.scheds[i], c, Some(nonce), w.scheds[i].offerCounter + 1);
    SameCounts(w.scheds[j], v.scheds[j]);
  }

  lemma QueueSame(w: World, v: World, j: nat)
    requires j < |w.scheds| == |v.scheds| && QueueOk(w, j) && v.scheds[j].queue == w.scheds[j].queue
    requires |v.ctxs| == |w.ctxs|
    requires forall h: nat :: h < |w.ctxs| ==> v.ctxs[h].parent == w.ctxs[h].parent && v.ctxs[h].purpose == w.ctxs[h].purpose
    requires Holders(v.scheds[j].records, OrdinarySlot) == Holders(w.scheds[j].records, OrdinarySlot)
    requires forall r :: r in w.scheds[j].records ==>
      r in v.scheds[j].records && v.scheds[j].records[r].admitted == w.scheds[j].records[r].admitted
    ensures QueueOk(v, j)
  {
  }

  /** Changing only the account and the offer counter. */
  lemma PatchInv(w: World, i: nat, a: Account, n: nat)
    requires Inv(w) && i < |w.scheds| && Balanced(a) && w.scheds[i].offerCounter <= n
    requires |w.scheds[i].account.leases| <= |a.leases|
    requires forall k: nat :: k < |w.scheds[i].account.leases| && HoldsLease(w.scheds[i].records, k) ==>
               a.leases[k] == w.scheds[i].account.leases[k]
    ensures Inv(WithSched(w, i, w.scheds[i].(account := a, offerCounter := n)))
  {
    hide CountsOk, Holders, Balanced, QueueOk, IdsOk, RecordOk, LeasesOk, HoldsLease;
    var v := WithSched(w, i, w.scheds[i].(account := a, offerCounter := n));
    ShapeKept(w, v);
    forall j: nat | j < |v.scheds|
      ensures SchedOk(v, j, {}) && NoLost(v.scheds[j])
    {
      assert SchedOk(w, j, {});
      if j == i {
        PatchSched(w, i, a, n);
      } else {
        OtherSched(w, v, {}, {}, j);
      }
    }
  }

  lemma PatchSched(w: World, i: nat, a: Account, n: nat)
    requires i < |w.scheds| && SchedOk(w, i, {}) && Balanced(a) && w.scheds[i].offerCounter <= n
    requires |w.scheds[i].account.leases| <= |a.leases|
    requires forall k: nat :: k < |w.scheds[i].account.leases| && HoldsLease(w.scheds[i].records, k) ==>
               a.leases[k] == w.scheds[i].account.leases[k]
    ensures SchedOk(WithSched(w, i, w.scheds[i].(account := a, offerCounter := n)), i, {})
  {
    hide CountsOk, Holders, Balanced;
    var v := WithSched(w, i, w.scheds[i].(account := a, offerCounter := n));
    forall r | r in v.scheds[i].records
      ensures RecordOk(v, i, {}, r)
    {
      assert RecordOk(w, i, {}, r);
      assert HoldsLease(w.scheds[i].records, w.scheds[i].records[r].lease);
    }
    QueueSame(w, v, i);
    assert CountsOk(v.scheds[i]) by {
      SameCounts(w.scheds[i], v.scheds[i]);
    }
  }

  /** At most one record answers to an id. */
  lemma IdIsUnique(w: World, i: nat, a: nat, b: nat)
    requires Inv(w) && i < |w.scheds| && a in w.scheds[i].records && b in w.scheds[i].records
    ensures a < |w.ctxs| && b < |w.ctxs|
    ensures IdOf(w.ctxs[a]) == IdOf(w.ctxs[b]) ==> a == b
  {
    assert SchedOk(w, i, {});
    assert RecordOk(w, i, {}, a) && RecordOk(w, i, {}, b);
  }

  lemma UnofferedGood(w: World, i: nat, c: nat)
    requires Inv(w) && i < |w.scheds| && c in w.scheds[i].records
    ensures Good(Unoffered(w, i, c), {}, {} + {c})
    ensures Live(w, c) ==> Inv(Unoffered(w, i, c))
  {
    var v := Unoffered(w, i, c);
    ShapeKept(w, v);
    forall j: nat | j < |v.scheds|
      ensures SchedOk(v, j, {c}) && NoLost(v.scheds[j])
      ensures Live(w, c) ==> SchedOk(v, j, {})
    {
      UnofferedSched(w, i, c, j);
    }
    assert {} + {c} == {c};
    forall h: nat | Live(v, h) && v.ctxs[h].owner < |v.scheds|
      ensures !v.scheds[v.ctxs[h].owner].failed
    {
      assert Live(w, h);
    }
  }

  lemma UnofferedRecord(w: World, i: nat, c: nat, j: nat, r: nat)
    requires i < |w.scheds| && c in w.scheds[i].records && j < |w.scheds|
    requires r in w.scheds[j].records && RecordOk(w, j, {}, r)
    ensures RecordOk(Unoffered(w, i, c), j, {c}, r)
    ensures Live(w, c) ==> RecordOk(Unoffered(w, i, c), j, {}, r)
  {
  }

  lemma UnofferedSched(w: World, i: nat, c: nat, j: nat)
    requires Inv(w) && i < |w.scheds| && c in w.scheds[i].records && j < |w.scheds|
    ensures SchedOk(Unoffered(w, i, c), j, {c}) && NoLost(Unoffered(w, i, c).scheds[j])
    ensures Live(w, c) ==> SchedOk(Unoffered(w, i, c), j, {})
  {
    hide CountsOk, Holders, Balanced, RecordOk, IdsOk, QueueOk, LeasesOk;
    var v := Unoffered(w, i, c);
    assert SchedOk(w, j, {});
    HoldersSameSlot(w.scheds[i].records, c, w.scheds[i].records[c].(offer := None));
    forall r | r in v.scheds[j].records
      ensures RecordOk(v, j, {c}, r)
      ensures Live(w, c) ==> RecordOk(v, j, {}, r)
    {
      UnofferedRecord(w, i, c, j, r);
    }
    QueueSame(w, v, j);
    assert SchedOk(w, i, {});
    OfferedLeases(w.scheds[i], c, None, w.scheds[i].offerCounter);
    SameCounts(w.scheds[j], v.scheds[j]);
    UnofferedIds(w, i, c, j);
  }

  lemma UnofferedIds(w: World, i: nat, c: nat, j: nat)
    requires i < |w.scheds| && c in w.scheds[i].records && j < |w.scheds| && IdsOk(w, j)
    ensures IdsOk(Unoffered(w, i, c), j)
  {
  }

  lemma AckedInv(w: World, i: nat, c: nat, v: World, env: Env)
    requires Inv(w) && i < |w.scheds| && c in w.scheds[i].records && Ended(w, c) && w.ctxs[c].owner == i
    requires var d := Dropped(Unoffered(w, i, c), c); Evolves(d, v, env) && KeepsNoLostBut(d, v, i)
    requires Good(v, {}, {}) && NoLost(v.scheds[i])
    ensures Inv(v)
  {
    hide Good, Evolves, DropRecord;
    var d := Dropped(Unoffered(w, i, c), c);
    DroppedKeeps(w, i, c);
    EvolvesEnded(d, v, env);
    forall h: nat | Live(v, h) && v.ctxs[h].owner < |v.scheds|
      ensures !v.scheds[v.ctxs[h].owner].failed
    {
      assert Ended(d, h) ==> Ended(v, h);
      assert Live(d, h) ==> Live(w, h);
    }
    forall j: nat | j < |v.scheds| && v.scheds[j].reaped
      ensures v.scheds[j].records == map[]
    {
      assert v.scheds[j].records.Keys <= d.scheds[j].records.Keys <= w.scheds[j].records.Keys;
    }
  }

  lemma DroppedKeeps(w: World, i: nat, c: nat)
    requires i < |w.scheds| && c in w.scheds[i].records && c < |w.ctxs| && w.ctxs[c].owner == i
    ensures
      var d := Dropped(Unoffered(w, i, c), c);
      && d.ctxs == w.ctxs && |d.scheds| == |w.scheds|
      && (forall j: nat :: j < |w.scheds| ==>
            && d.scheds[j].failed == w.scheds[j].failed && d.scheds[j].reaped == w.scheds[j].reaped
            && d.scheds[j].records.Keys <= w.scheds[j].records.Keys
            && (j != i ==> d.scheds[j] == w.scheds[j]))
  {
  }

  lemma BumpedInv(w: World, i: nat)
    requires Inv(w) && i < |w.scheds|
    ensures Inv(WithSched(w, i, w.scheds[i].(offerCounter := w.scheds[i].offerCounter + 1)))
  {
    assert SchedOk(w, i, {});
    PatchInv(w, i, w.scheds[i].account, w.scheds[i].offerCounter + 1);
  }

  lemma LendInv(w: World, i: nat, bytes: int, control: bool)
    requires Inv(w) && i < |w.scheds| && Reserve(w.scheds[i].account, bytes, control).Ok?
    ensures Inv(WithSched(w, i, w.scheds[i].(account := Reserve(w.scheds[i].account, bytes, control).value)))
  {
    assert SchedOk(w, i, {});
    ReserveKeepsBalance(w.scheds[i].account, bytes, control);
    PatchInv(w, i, Reserve(w.scheds[i].account, bytes, control).value, w.scheds[i].offerCounter);
  }

  lemma ReturnInv(w: World, i: nat, lease: nat)
    requires Inv(w) && i < |w.scheds| && lease < |w.scheds[i].account.leases|
    requires !HoldsLease(w.scheds[i].records, lease)
    ensures Inv(WithSched(w, i, w.scheds[i].(account := Release(w.scheds[i].account, lease))))
  {
    assert SchedOk(w, i, {});
    ReleaseKeepsBalance(w.scheds[i].account, lease);
    PatchInv(w, i, Release(w.scheds[i].account, lease), w.scheds[i].offerCounter);
  }

  lemma NobodyElse(w: World, i: nat, id: ContextId, nonce: nat, found: Option<nat>)
    requires Inv(w) && i < |w.scheds|
    requires found.None? ==> forall r :: r in w.scheds[i].records ==> r < |w.ctxs| && IdOf(w.ctxs[r]) != id
    requires found.Some? ==>
      && found.value in w.scheds[i].records && found.value < |w.ctxs|
      && IdOf(w.ctxs[found.value]) == id && w.scheds[i].records[found.value].offer != Some(nonce)
    ensures forall c :: !Answers(w, i, id, nonce, c)
  {
    forall c
      ensures !Answers(w, i, id, nonce, c)
    {
      if Answers(w, i, id, nonce, c) && found.Some? {
        IdIsUnique(w, i, c, found.value);
      }
    }
  }
}
