/** One small lemma per elementary update: what it keeps of the invariant, and how
    turns compose. */
module ContextLemmas {
  import opened Core
  import opened Budgets
  import opened Contexts

  // ------------------------------------------------------------- composition

  lemma SchedKeptTrans(u: World, v: World, w: World, i: nat, env: Env)
    requires i < |u.scheds| && |u.scheds| == |v.scheds| == |w.scheds|
    requires Evolves(u, v, env) && Evolves(v, w, env)
    ensures SchedKept(u, w, i, env)
  {
    var r, s, t := u.scheds[i], v.scheds[i], w.scheds[i];
    assert SchedKept(u, v, i, env) && SchedKept(v, w, i, env);
    forall x | x in t.records
      ensures RecordKept(u, i, x, t.records[x], env)
    {
      assert RecordKept(v, i, x, t.records[x], env);
      assert RecordKept(u, i, x, s.records[x], env);
    }
    forall x | x in r.records && x !in t.records
      ensures Ended(w, x) && r.records[x].offer.None?
    {
      if x in s.records {
        assert RecordKept(u, i, x, s.records[x], env);
      }
    }
    LeasesKeptTrans(u, v, w, i, env);
  }

  lemma LeasesKeptTrans(u: World, v: World, w: World, i: nat, env: Env)
    requires i < |u.scheds| && |u.scheds| == |v.scheds| == |w.scheds|
    requires SchedKept(u, v, i, env) && SchedKept(v, w, i, env)
    ensures LeasesKept(u.scheds[i], w.scheds[i])
  {
    var r, s, t := u.scheds[i], v.scheds[i], w.scheds[i];
    forall k: nat | k < |r.account.leases|
      ensures t.account.leases[k] == r.account.leases[k]
           || (HoldsLease(r.records, k) && t.account.leases[k] == r.account.leases[k].(released := true))
    {
      if HoldsLease(s.records, k) {
        var x :| x in s.records && s.records[x].lease == k;
        assert RecordKept(u, i, x, s.records[x], env);
        assert HoldsLease(r.records, k);
      }
    }
    forall x | x in r.records && x !in t.records && r.records[x].lease < |t.account.leases|
      ensures t.account.leases[r.records[x].lease].released
    {
      if x in s.records {
        assert RecordKept(u, i, x, s.records[x], env);
      }
    }
  }

  lemma EvolvesTrans(u: World, v: World, w: World, env: Env)
    requires Evolves(u, v, env) && Evolves(v, w, env)
    ensures Evolves(u, w, env)
  {
    forall i: nat | i < |u.scheds|
      ensures SchedKept(u, w, i, env)
    {
      SchedKeptTrans(u, v, w, i, env);
    }
  }

  lemma {:induction false} UnderKept(cs: seq<Context>, ds: seq<Context>, top: nat, h: nat)
    requires |cs| == |ds|
    requires forall k: nat :: k < |cs| ==> CtxKept(cs[k], ds[k])
    ensures Under(cs, top, h) <==> Under(ds, top, h)
    decreases h
  {
    if h < |cs| && cs[h].parent.Some? && cs[h].parent.value < h {
      UnderKept(cs, ds, top, cs[h].parent.value);
    }
  }

  lemma {:induction false} UnderChild(cs: seq<Context>, top: nat, child: nat, h: nat)
    requires child < |cs| && cs[child].parent == Some(top) && top < child
    requires Under(cs, child, h)
    ensures Under(cs, top, h) && top < h
    decreases h
  {
    if h == child {
      assert Under(cs, top, top);
    } else {
      UnderChild(cs, top, child, cs[h].parent.value);
    }
  }

  lemma GoodSane(w: World, P: set<nat>, Q: set<nat>)
    requires Good(w, P, Q)
    ensures Sane(w)
  {
    forall i: nat | i < |w.scheds|
      ensures CountsOk(w.scheds[i])
        && (forall r :: r in Holders(w.scheds[i].records, OrdinarySlot) ==> r < |w.ctxs| && w.ctxs[r].resolved)
    {
      assert SchedOk(w, i, Q);
      assert forall r :: r in Holders(w.scheds[i].records, OrdinarySlot) ==> RecordOk(w, i, Q, r);
    }
  }

  /** A free slot that is gone later went to somebody who was waiting. */
  lemma SlotTaken(v: World, w: World, i: nat, env: Env) returns (b: nat)
    requires Evolves(v, w, env) && Sane(v) && Sane(w) && i < |v.scheds|
    requires v.scheds[i].ordinary < 4 <= w.scheds[i].ordinary
    ensures b in v.scheds[i].queue && b < |w.ctxs| && w.ctxs[b].resolved
  {
    var before := Holders(v.scheds[i].records, OrdinarySlot);
    var after := Holders(w.scheds[i].records, OrdinarySlot);
    assert SchedKept(v, w, i, env);
    if after <= before {
      SubsetSize(after, before);
    }
    b :| b in after && b !in before;
    assert RecordKept(v, i, b, w.scheds[i].records[b], env);
  }

  lemma {:induction false} SubsetSize(a: set<nat>, b: set<nat>)
    requires a <= b
    ensures |a| <= |b|
  {
    if a != {} {
      var x :| x in a;
      SubsetSize(a - {x}, b - {x});
    }
  }

  lemma InTurnLater(u: World, v: World, w: World, h: nat, env: Env)
    requires h < |u.ctxs| && Evolves(u, v, env) && Evolves(v, w, env) && Sane(v) && Sane(w)
    requires InTurn(u, v, h)
    ensures InTurn(u, w, h)
  {
    var i := u.ctxs[h].owner;
    assert SchedKept(u, v, i, env) && SchedKept(v, w, i, env);
    if v.scheds[i].ordinary < 4 {
      if w.scheds[i].ordinary >= 4 {
        var b := SlotTaken(v, w, i, env);
        assert b in u.scheds[i].queue && h < b;
      }
    } else {
      var b :| b in u.scheds[i].queue && h < b < |v.ctxs| && v.ctxs[b].resolved;
      assert CtxKept(v.ctxs[b], w.ctxs[b]);
    }
  }

  lemma InTurnEarlier(u: World, v: World, w: World, h: nat, env: Env)
    requires h < |u.ctxs| && Evolves(u, v, env) && Evolves(v, w, env)
    requires InTurn(v, w, h)
    ensures InTurn(u, w, h)
  {
    var i := u.ctxs[h].owner;
    assert CtxKept(u.ctxs[h], v.ctxs[h]);
    assert SchedKept(u, v, i, env);
    if w.scheds[i].ordinary >= 4 {
      var b :| b in v.scheds[i].queue && h < b < |w.ctxs| && w.ctxs[b].resolved;
      assert b in u.scheds[i].queue;
    }
  }

  /** One context's end, seen over two evolutions, in the stage it happened. */
  lemma EndEarly(u: World, v: World, w: World, h: nat, env: Env, top: Option<nat>, out: Outcome)
    requires Evolves(u, v, env) && Evolves(v, w, env) && Sane(v) && Sane(w)
    requires Live(u, h) && Ended(v, h) && EndsOnly(u, v, env, top, out)
    ensures Ended(w, h) && MayEnd(u, w, h, w.ctxs[h].terminal.value, env, top, out)
  {
    assert CtxKept(v.ctxs[h], w.ctxs[h]);
    var o := v.ctxs[h].terminal.value;
    assert MayEnd(u, v, h, o, env, top, out);
    if WaitingRootFails(u, v, h, o, env) {
      InTurnLater(u, v, w, h, env);
    }
  }

  lemma EndLate(u: World, v: World, w: World, h: nat, o: Outcome, env: Env)
    requires Evolves(u, v, env) && Evolves(v, w, env) && h < |u.ctxs|
    requires WaitingRootFails(v, w, h, o, env)
    ensures WaitingRootFails(u, w, h, o, env)
  {
    assert CtxKept(u.ctxs[h], v.ctxs[h]);
    InTurnEarlier(u, v, w, h, env);
  }

  /** What a child's `finish` ends, the parent's `finish` may end. */
  lemma EndsUnderParent(u: World, v: World, w: World, env: Env, top: nat, child: nat, out: Outcome)
    requires Evolves(u, v, env) && Evolves(v, w, env) && Sane(v) && Sane(w)
    requires EndsOnly(u, v, env, Some(top), out)
    requires EndsOnly(v, w, env, Some(child), Cascade(out))
    requires child < |u.ctxs| && u.ctxs[child].parent == Some(top) && top < child
    ensures EndsOnly(u, w, env, Some(top), out)
  {
    forall h: nat | Live(u, h) && Ended(w, h)
      ensures MayEnd(u, w, h, w.ctxs[h].terminal.value, env, Some(top), out)
    {
      if Live(v, h) {
        var o := w.ctxs[h].terminal.value;
        assert MayEnd(v, w, h, o, env, Some(child), Cascade(out));
        if WaitingRootFails(v, w, h, o, env) {
          EndLate(u, v, w, h, o, env);
        } else {
          UnderKept(u.ctxs, v.ctxs, child, h);
          UnderChild(u.ctxs, top, child, h);
        }
      } else {
        EndEarly(u, v, w, h, env, Some(top), out);
      }
    }
  }

  /** Steps that end only waiting roots compose with anything. */
  lemma EndsTrans(u: World, v: World, w: World, env: Env, top: Option<nat>, out: Outcome)
    requires Evolves(u, v, env) && Evolves(v, w, env) && Sane(v) && Sane(w)
    requires EndsOnly(u, v, env, top, out)
    requires EndsOnly(v, w, env, None, out)
    ensures EndsOnly(u, w, env, top, out)
  {
    forall h: nat | Live(u, h) && Ended(w, h)
      ensures MayEnd(u, w, h, w.ctxs[h].terminal.value, env, top, out)
    {
      if Live(v, h) {
        EndLate(u, v, w, h, w.ctxs[h].terminal.value, env);
      } else {
        EndEarly(u, v, w, h, env, top, out);
      }
    }
  }

  lemma {:induction false} LiveCountMono(cs: seq<Context>, ds: seq<Context>)
    requires |cs| == |ds|
    requires forall k: nat :: k < |cs| ==> CtxKept(cs[k], ds[k])
    ensures LiveCount(ds) <= LiveCount(cs)
  {
    if cs != [] {
      var n := |cs| - 1;
      assert CtxKept(cs[n], ds[n]);
      LiveCountMono(cs[..n], ds[..n]);
    }
  }

  lemma {:induction false} LiveCountMark(cs: seq<Context>, c: nat, out: Outcome)
    requires c < |cs| && cs[c].terminal.None?
    ensures LiveCount(cs[c := cs[c].(terminal := Some(out))]) == LiveCount(cs) - 1
  {
    var n := |cs| - 1;
    var ds := cs[c := cs[c].(terminal := Some(out))];
    if c == n {
      assert ds[..n] == cs[..n];
    } else {
      LiveCountMark(cs[..n], c, out);
      assert ds[..n] == cs[..n][c := cs[c].(terminal := Some(out))];
    }
  }

  // ------------------------------------------------------------ SetTerminal

  lemma MarkGood(w: World, P: set<nat>, Q: set<nat>, c: nat, out: Outcome)
    requires Good(w, P, Q) && c in Q && Live(w, c)
    ensures Good(SetTerminal(w, c, out), P + {c}, Q)
  {
    var v := SetTerminal(w, c, out);
    forall h: nat | h < |v.ctxs|
      ensures ShapeAt(v, h)
    {
      assert ShapeAt(w, h);
    }
    MarkTree(w, P, c, out);
    forall i: nat | i < |v.scheds|
      ensures SchedOk(v, i, Q)
    {
      MarkSched(w, Q, c, out, i);
    }
  }

  lemma MarkTree(w: World, P: set<nat>, c: nat, out: Outcome)
    requires TreeOk(w, P) && Live(w, c)
    ensures TreeOk(SetTerminal(w, c, out), P + {c})
  {
    var v := SetTerminal(w, c, out);
    forall h: nat | h < |w.ctxs|
      ensures (Live(v, h) || h in P + {c}) <==> (Live(w, h) || h in P)
    {
    }
    forall p: nat, k: nat | p < |v.ctxs|
      ensures k in v.ctxs[p].children <==>
              k < |v.ctxs| && v.ctxs[k].parent == Some(p) && (Live(v, k) || k in P + {c})
    {
      assert v.ctxs[p].children == w.ctxs[p].children;
    }
  }

  lemma MarkSched(w: World, Q: set<nat>, c: nat, out: Outcome, i: nat)
    requires i < |w.scheds| && SchedOk(w, i, Q) && c in Q && Live(w, c)
    ensures SchedOk(SetTerminal(w, c, out), i, Q)
  {
    hide RecordOk, QueueOk, CountsOk, LeasesOk, IdsOk;
    var v := SetTerminal(w, c, out);
    forall r | r in v.scheds[i].records
      ensures RecordOk(v, i, Q, r)
    {
      MarkRecord(w, Q, c, out, i, r);
    }
    MarkQueue(w, c, out, i);
  }

  lemma MarkRecord(w: World, Q: set<nat>, c: nat, out: Outcome, i: nat, r: nat)
    requires i < |w.scheds| && r in w.scheds[i].records && RecordOk(w, i, Q, r) && c in Q && Live(w, c)
    ensures RecordOk(SetTerminal(w, c, out), i, Q, r)
  {
    hide HoldsLease;
  }

  lemma MarkQueue(w: World, c: nat, out: Outcome, i: nat)
    requires i < |w.scheds| && QueueOk(w, i) && IdsOk(w, i) && Live(w, c)
    ensures QueueOk(SetTerminal(w, c, out), i) && IdsOk(SetTerminal(w, c, out), i)
  {
    hide Holders;
  }

  lemma MarkEvolves(w: World, env: Env, c: nat, out: Outcome)
    requires Live(w, c)
    ensures Evolves(w, SetTerminal(w, c, out), env)
    ensures KeepsNoLost(w, SetTerminal(w, c, out))
    ensures EndsOnly(w, SetTerminal(w, c, out), env, Some(c), out)
  {
  }

  // ----------------------------------------------------------------- Unlink

  lemma ShapeKept(w: World, v: World)
    requires Shape(w) && |v.ctxs| == |w.ctxs| && |v.scheds| == |w.scheds|
    requires forall h: nat :: h < |w.ctxs| ==> CtxKept(w.ctxs[h], v.ctxs[h])
    ensures Shape(v)
  {
    forall h: nat | h < |v.ctxs|
      ensures ShapeAt(v, h)
    {
      assert ShapeAt(w, h);
      assert CtxKept(w.ctxs[h], v.ctxs[h]);
      if v.ctxs[h].parent.Some? {
        assert CtxKept(w.ctxs[v.ctxs[h].parent.value], v.ctxs[v.ctxs[h].parent.value]);
      }
    }
  }

  lemma UnlinkTree(w: World, P: set<nat>, c: nat)
    requires Shape(w) && TreeOk(w, P + {c}) && c !in P && Ended(w, c)
    requires forall h: nat :: Live(w, h) ==> w.ctxs[h].parent != Some(c)
    ensures ShapeAt(w, c)
    ensures TreeOk(Unlink(w, c), P)
  {
    assert ShapeAt(w, c);
    var v := Unlink(w, c);
    forall p: nat, k: nat | p < |v.ctxs|
      ensures k in v.ctxs[p].children <==>
              k < |v.ctxs| && v.ctxs[k].parent == Some(p) && (Live(v, k) || k in P)
    {
      assert k in w.ctxs[p].children <==>
             k < |w.ctxs| && w.ctxs[k].parent == Some(p) && (Live(w, k) || k in P + {c});
    }
  }

  /** A session's invariant does not look at `children`. */
  lemma ChildrenIrrelevant(w: World, v: World, Q: set<nat>, i: nat)
    requires i < |w.scheds| && SchedOk(w, i, Q)
    requires v.scheds == w.scheds && |v.ctxs| == |w.ctxs|
    requires forall h: nat :: h < |w.ctxs| ==> v.ctxs[h] == w.ctxs[h].(children := v.ctxs[h].children)
    ensures SchedOk(v, i, Q)
  {
    forall r | r in v.scheds[i].records
      ensures RecordOk(v, i, Q, r)
    {
      assert RecordOk(w, i, Q, r);
    }
    assert IdsOk(v, i);
    assert QueueOk(v, i);
  }

  lemma UnlinkGood(w: World, P: set<nat>, Q: set<nat>, c: nat)
    requires Good(w, P + {c}, Q) && c !in P && Ended(w, c)
    requires forall h: nat :: Live(w, h) ==> w.ctxs[h].parent != Some(c)
    ensures Shape(w) && ShapeAt(w, c)
    ensures Good(Unlink(w, c), P, Q)
  {
    UnlinkTree(w, P, c);
    var v := Unlink(w, c);
    ShapeKept(w, v);
    forall i: nat | i < |v.scheds|
      ensures SchedOk(v, i, Q)
    {
      assert SchedOk(w, i, Q);
      ChildrenIrrelevant(w, v, Q, i);
    }
  }

  lemma UnlinkEvolves(w: World, env: Env, c: nat)
    requires c < |w.ctxs| && (w.ctxs[c].parent.Some? ==> w.ctxs[c].parent.value < |w.ctxs|)
    ensures Evolves(w, Unlink(w, c), env)
    ensures KeepsNoLost(w, Unlink(w, c))
    ensures forall out :: EndsOnly(w, Unlink(w, c), env, None, out)
  {
  }

  // ------------------------------------------------------------- DropRecord

  ghost predicate Ascending(q: seq<nat>) {
    forall j: nat, k: nat :: j < k < |q| ==> q[j] < q[k]
  }

  lemma {:induction false} WithoutIs(q: seq<nat>, c: nat)
    ensures c !in Without(q, c)
    ensures forall x :: x in Without(q, c) <==> x in q && x != c
    ensures |Without(q, c)| <= |q|
  {
    if q != [] {
      WithoutIs(q[1..], c);
      assert q == [q[0]] + q[1..];
    }
  }

  lemma {:induction false} WithoutAscends(q: seq<nat>, c: nat)
    requires Ascending(q)
    ensures Ascending(Without(q, c))
  {
    if q != [] {
      WithoutAscends(q[1..], c);
      var rest := Without(q[1..], c);
      WithoutIs(q[1..], c);
      forall k: nat | k < |rest|
        ensures q[0] < rest[k]
      {
        assert rest[k] in q[1..];
      }
    }
  }

  lemma HoldersDrop(records: map<nat, Record>, c: nat, slot: Slot)
    requires c in records
    ensures Holders(records - {c}, slot) == Holders(records, slot) - {c}
    ensures |Holders(records - {c}, slot)| == |Holders(records, slot)| - if records[c].slot == Some(slot) then 1 else 0
  {
    assert Holders(records - {c}, slot) == Holders(records, slot) - {c};
  }

  lemma DropHolders(s: Sched, c: nat)
    requires c in s.records && CountsOk(s) && s.records[c].lease < |s.account.leases|
    ensures CountsOk(DropRecord(s, c))
    ensures Holders(s.records - {c}, OrdinarySlot) == Holders(s.records, OrdinarySlot) - {c}
  {
    hide Holders, Release, Without;
    HoldersDrop(s.records, c, OrdinarySlot);
    HoldersDrop(s.records, c, NestedSlot);
    HoldersDrop(s.records, c, LifecycleSlot);
  }

  lemma DropLeases(s: Sched, c: nat)
    requires c in s.records && LeasesOk(s) && s.records[c].lease < |s.account.leases|
    ensures LeasesOk(DropRecord(s, c))
    ensures DropRecord(s, c).account.leases ==
            s.account.leases[s.records[c].lease := s.account.leases[s.records[c].lease].(released := true)]
  {
    ReleaseKeepsBalance(s.account, s.records[c].lease);
  }

  lemma DropQueue(w: World, i: nat, c: nat)
    requires i < |w.scheds| && QueueOk(w, i) && c in w.scheds[i].records && CountsOk(w.scheds[i])
    requires w.scheds[i].records[c].lease < |w.scheds[i].account.leases|
    ensures QueueOk(WithSched(w, i, DropRecord(w.scheds[i], c)), i)
  {
    var s := w.scheds[i];
    var t := DropRecord(s, c);
    WithoutIs(s.queue, c);
    WithoutAscends(s.queue, c);
    DropHolders(s, c);
    assert t.queue == Without(s.queue, c);
    forall k: nat | k < |t.queue|
      ensures exists m: nat :: m < |s.queue| && s.queue[m] == t.queue[k] && t.queue[k] != c
    {
      assert t.queue[k] in t.queue;
    }
  }

  lemma DropRecordsOk(w: World, Q: set<nat>, c: nat, i: nat, r: nat)
    requires i < |w.scheds| && LeasesOk(w.scheds[i]) && c in w.scheds[i].records
    requires r in w.scheds[i].records && r != c && RecordOk(w, i, Q + {c}, r) && RecordOk(w, i, Q + {c}, c)
    ensures RecordOk(WithSched(w, i, DropRecord(w.scheds[i], c)), i, Q, r)
  {
    var s := w.scheds[i];
    DropLeases(s, c);
    WithoutIs(s.queue, c);
    assert s.records[r].lease != s.records[c].lease;
  }

  lemma RecordLease(w: World, Q: set<nat>, c: nat, i: nat)
    requires i < |w.scheds| && c in w.scheds[i].records && RecordOk(w, i, Q, c)
    ensures w.scheds[i].records[c].lease < |w.scheds[i].account.leases|
    ensures c < |w.ctxs| && w.ctxs[c].owner == i
  {
  }

  lemma DropSched(w: World, Q: set<nat>, c: nat, i: nat)
    requires i < |w.scheds| && SchedOk(w, i, Q + {c}) && c in w.scheds[i].records
    requires Ended(w, c)
    ensures RecordOk(w, i, Q + {c}, c)
    ensures SchedOk(WithSched(w, i, DropRecord(w.scheds[i], c)), i, Q)
  {
    hide RecordOk, QueueOk, CountsOk, LeasesOk, Holders;
    var s := w.scheds[i];
    assert RecordOk(w, i, Q + {c}, c);
    assert s.records[c].lease < |s.account.leases| by {
      RecordLease(w, Q + {c}, c, i);
    }
    var t := DropRecord(s, c);
    var v := WithSched(w, i, t);
    assert t.records == s.records - {c} && t.reaped == s.reaped && t.failed == s.failed;
    forall r | r in t.records
      ensures RecordOk(v, i, Q, r)
    {
      assert RecordOk(w, i, Q + {c}, r);
      DropRecordsOk(w, Q, c, i, r);
    }
    DropQueue(w, i, c);
    DropHolders(s, c);
    DropLeases(s, c);
    assert IdsOk(v, i) by {
      assert IdsOk(w, i);
    }
  }

  /** Nothing in w that session i looks at is different in v: its contexts may only have
      lost or gained children, and new contexts belong to others. */
  ghost predicate Bystander(w: World, v: World, i: nat) {
    && i < |w.scheds| && i < |v.scheds| && v.scheds[i] == w.scheds[i] && |w.ctxs| <= |v.ctxs|
    && (forall h: nat :: h < |w.ctxs| ==> v.ctxs[h].owner == w.ctxs[h].owner)
    && (forall h: nat :: h < |w.ctxs| && w.ctxs[h].owner == i ==> v.ctxs[h] == w.ctxs[h].(children := v.ctxs[h].children))
    && (forall h: nat :: |w.ctxs| <= h < |v.ctxs| ==> v.ctxs[h].owner != i)
  }

  /** A session other than the one that changed keeps its invariant. */
  lemma OtherSched(w: World, v: World, Q: set<nat>, R: set<nat>, i: nat)
    requires Bystander(w, v, i) && SchedOk(w, i, Q)
    requires forall x :: x in Q && x !in R ==> x !in w.scheds[i].records
    ensures SchedOk(v, i, R)
  {
    hide RecordOk, QueueOk, CountsOk, LeasesOk, IdsOk;
    forall r: nat | r in w.scheds[i].records
      ensures r < |w.ctxs| && w.ctxs[r].owner == i && RecordOk(v, i, R, r)
    {
      OtherRecord(w, v, Q, R, i, r);
    }
    OtherQueue(w, v, i);
    OtherIds(w, v, i);
    assert v.scheds[i] == w.scheds[i] && forall h: nat :: Live(v, h) && v.ctxs[h].owner == i ==> h in v.scheds[i].records by {
      OtherLive(w, v, i);
    }
  }

  lemma OtherRecord(w: World, v: World, Q: set<nat>, R: set<nat>, i: nat, r: nat)
    requires Bystander(w, v, i) && r in w.scheds[i].records && RecordOk(w, i, Q, r)
    requires forall x :: x in Q && x !in R ==> x !in w.scheds[i].records
    ensures r < |w.ctxs| && w.ctxs[r].owner == i && RecordOk(v, i, R, r)
  {
    hide HoldsLease;
  }

  lemma OtherQueue(w: World, v: World, i: nat)
    requires Bystander(w, v, i) && QueueOk(w, i)
    requires forall r :: r in w.scheds[i].records ==> r < |w.ctxs| && w.ctxs[r].owner == i
    ensures QueueOk(v, i)
  {
    hide Holders;
  }

  lemma OtherIds(w: World, v: World, i: nat)
    requires Bystander(w, v, i) && IdsOk(w, i)
    ensures IdsOk(v, i)
  {
  }

  lemma OtherLive(w: World, v: World, i: nat)
    requires Bystander(w, v, i) && forall h: nat :: Live(w, h) && w.ctxs[h].owner == i ==> h in w.scheds[i].records
    ensures v.scheds[i] == w.scheds[i] && forall h: nat :: Live(v, h) && v.ctxs[h].owner == i ==> h in v.scheds[i].records
  {
  }

  lemma NotElsewhere(w: World, Q: set<nat>, c: nat, j: nat)
    requires j < |w.scheds| && SchedOk(w, j, Q) && c < |w.ctxs| && w.ctxs[c].owner != j
    ensures c !in w.scheds[j].records
  {
    assert c in w.scheds[j].records ==> RecordOk(w, j, Q, c);
  }

  lemma SameContexts(w: World, v: World, j: nat)
    requires j < |w.scheds| && j < |v.scheds| && v.scheds[j] == w.scheds[j] && v.ctxs == w.ctxs
    ensures Bystander(w, v, j)
  {
  }

  lemma DropGood(w: World, P: set<nat>, Q: set<nat>, c: nat, i: nat)
    requires Good(w, P, Q + {c}) && Ended(w, c) && w.ctxs[c].owner == i
    requires i < |w.scheds| && c in w.scheds[i].records
    ensures RecordOk(w, i, Q + {c}, c)
    ensures Good(WithSched(w, i, DropRecord(w.scheds[i], c)), P, Q)
  {
    hide SchedOk, DropRecord, RecordOk, Bystander, ShapeAt;
    assert SchedOk(w, i, Q + {c});
    DropSched(w, Q, c, i);
    RecordLease(w, Q + {c}, c, i);
    var v := WithSched(w, i, DropRecord(w.scheds[i], c));
    forall j: nat | j < |v.scheds| && j != i
      ensures Bystander(w, v, j)
    {
      SameContexts(w, v, j);
    }
    forall j: nat | j < |v.scheds|
      ensures SchedOk(v, j, Q)
    {
      if j != i {
        assert SchedOk(w, j, Q + {c});
        NotElsewhere(w, Q + {c}, c, j);
        OtherSched(w, v, Q + {c}, Q, j);
      }
    }
    ShapeKept(w, v);
  }

  lemma DropEvolves(w: World, env: Env, c: nat, i: nat)
    requires i < |w.scheds| && c in w.scheds[i].records && Ended(w, c)
    requires !w.scheds[i].failed || w.scheds[i].reaped
    requires w.scheds[i].records[c].offer.None?
    requires w.scheds[i].records[c].lease < |w.scheds[i].account.leases|
    ensures Evolves(w, WithSched(w, i, DropRecord(w.scheds[i], c)), env)
    ensures forall out :: EndsOnly(w, WithSched(w, i, DropRecord(w.scheds[i], c)), env, None, out)
  {
    var s := w.scheds[i];
    var v := WithSched(w, i, DropRecord(s, c));
    WithoutIs(s.queue, c);
    assert HoldsLease(s.records, s.records[c].lease);
  }

  /** A record that keeps its descriptor offer, or whose session is quarantined, is
      no longer in transit: it stays. */
  lemma StayGood(w: World, P: set<nat>, Q: set<nat>, c: nat)
    requires Good(w, P, Q + {c}) && Ended(w, c)
    requires forall i: nat :: i < |w.scheds| && c in w.scheds[i].records ==>
               w.scheds[i].records[c].offer.Some? || w.scheds[i].failed
    ensures Good(w, P, Q)
  {
    forall i: nat | i < |w.scheds|
      ensures SchedOk(w, i, Q)
    {
      assert SchedOk(w, i, Q + {c});
      forall r | r in w.scheds[i].records
        ensures RecordOk(w, i, Q, r)
      {
        assert RecordOk(w, i, Q + {c}, r);
      }
    }
  }

  lemma WidenGood(w: World, P: set<nat>, Q: set<nat>, R: set<nat>)
    requires Good(w, P, Q) && Q <= R
    ensures Good(w, P, R)
  {
    forall i: nat | i < |w.scheds|
      ensures SchedOk(w, i, R)
    {
      assert SchedOk(w, i, Q);
      forall r | r in w.scheds[i].records
        ensures RecordOk(w, i, R, r)
      {
        assert RecordOk(w, i, Q, r);
      }
    }
  }

  // --------------------------------------------------------------- PopQueue

  function PopQueue(s: Sched): Sched
    requires s.queue != []
  {
    s.(queue := s.queue[1..])
  }

  lemma PopGood(w: World, P: set<nat>, Q: set<nat>, i: nat)
    requires Good(w, P, Q) && i < |w.scheds| && w.scheds[i].queue != [] && !w.scheds[i].failed
    ensures
      var r := w.scheds[i].queue[0];
      && Good(WithSched(w, i, PopQueue(w.scheds[i])), P, Q + {r})
      && StartReady(WithSched(w, i, PopQueue(w.scheds[i])), i, r, OrdinarySlot)
      && w.ctxs[r].parent.None?
      && r in w.scheds[i].queue && RecordOk(w, i, Q, r)
  {
    hide SchedOk, RecordOk, QueueOk, Bystander, ShapeAt;
    var s := w.scheds[i];
    var r := s.queue[0];
    var v := WithSched(w, i, PopQueue(s));
    assert SchedOk(w, i, Q);
    PopSched(w, Q, i);
    forall j: nat | j < |v.scheds|
      ensures SchedOk(v, j, Q + {r})
    {
      if j != i {
        assert SchedOk(w, j, Q);
        SameContexts(w, v, j);
        OtherSched(w, v, Q, Q + {r}, j);
      }
    }
    ShapeKept(w, v);
  }

  lemma PopSched(w: World, Q: set<nat>, i: nat)
    requires i < |w.scheds| && SchedOk(w, i, Q) && w.scheds[i].queue != [] && !w.scheds[i].failed
    ensures
      var r := w.scheds[i].queue[0];
      var v := WithSched(w, i, PopQueue(w.scheds[i]));
      && SchedOk(v, i, Q + {r}) && StartReady(v, i, r, OrdinarySlot)
      && r < |w.ctxs| && w.ctxs[r].parent.None? && r in w.scheds[i].queue && RecordOk(w, i, Q, r)
  {
    hide CountsOk, LeasesOk, IdsOk, Holders, HoldsLease;
    var s := w.scheds[i];
    var r := s.queue[0];
    var v := WithSched(w, i, PopQueue(s));
    assert r in s.queue;
    assert RecordOk(w, i, Q, r);
    assert s.queue == [r] + s.queue[1..];
    forall k: nat | k < |s.queue| - 1
      ensures s.queue[1..][k] == s.queue[k + 1] && r < s.queue[1..][k]
    {
      assert s.queue[0] < s.queue[k + 1];
    }
    forall x | x in v.scheds[i].records
      ensures RecordOk(v, i, Q + {r}, x)
    {
      assert RecordOk(w, i, Q, x);
    }
    PopIds(w, i);
  }

  lemma PopIds(w: World, i: nat)
    requires i < |w.scheds| && IdsOk(w, i) && w.scheds[i].queue != []
    ensures IdsOk(WithSched(w, i, PopQueue(w.scheds[i])), i)
    ensures CountsOk(PopQueue(w.scheds[i])) == CountsOk(w.scheds[i])
    ensures LeasesOk(PopQueue(w.scheds[i])) == LeasesOk(w.scheds[i])
  {
    hide Balanced, Holders;
  }

  lemma PopEvolves(w: World, env: Env, i: nat)
    requires i < |w.scheds| && w.scheds[i].queue != [] && !w.scheds[i].failed
    ensures Evolves(w, WithSched(w, i, PopQueue(w.scheds[i])), env)
    ensures forall out :: EndsOnly(w, WithSched(w, i, PopQueue(w.scheds[i])), env, None, out)
  {
  }

  // -------------------------------------------------------------- GrantSlot

  function SlotFree(s: Sched, slot: Slot): bool {
    match slot
    case OrdinarySlot => s.ordinary < 4
    case NestedSlot => s.nested < 4
    case LifecycleSlot => s.lifecycle < 1
  }

  /** r has a record that is neither admitted nor queued, and may take the slot
      without overtaking anyone. */
  ghost predicate Startable(w: World, i: nat, r: nat, slot: Slot) {
    && StartReady(w, i, r, slot)
    && SlotFree(w.scheds[i], slot)
  }

  ghost predicate StartReady(w: World, i: nat, r: nat, slot: Slot) {
    && i < |w.scheds|
    && r < |w.ctxs|
    && w.ctxs[r].owner == i
    && !w.scheds[i].failed
    && r in w.scheds[i].records
    && !w.scheds[i].records[r].admitted
    && w.scheds[i].records[r].slot.None?
    && r !in w.scheds[i].queue
    && !w.ctxs[r].resolved
    && (slot == OrdinarySlot ==> forall k: nat :: k < |w.scheds[i].queue| ==> r < w.scheds[i].queue[k])
    && (slot == LifecycleSlot <==> w.ctxs[r].purpose == Lifecycle)
  }

  lemma HoldersGrant(records: map<nat, Record>, r: nat, rec: Record, slot: Slot)
    requires r in records && records[r].slot.None? && rec.slot.Some?
    ensures Holders(records[r := rec], slot) == Holders(records, slot) + if rec.slot == Some(slot) then {r} else {}
    ensures |Holders(records[r := rec], slot)| == |Holders(records, slot)| + if rec.slot == Some(slot) then 1 else 0
  {
    assert Holders(records[r := rec], slot) == Holders(records, slot) + if rec.slot == Some(slot) then {r} else {};
  }

  lemma GrantHolders(s: Sched, r: nat, slot: Slot)
    requires r in s.records && s.records[r].slot.None? && CountsOk(s) && SlotFree(s, slot)
    ensures CountsOk(GrantSlot(s, r, slot))
    ensures Holders(GrantSlot(s, r, slot).records, OrdinarySlot) ==
            Holders(s.records, OrdinarySlot) + if slot == OrdinarySlot then {r} else {}
  {
    var rec := s.records[r].(slot := Some(slot), admitted := true);
    HoldersGrant(s.records, r, rec, OrdinarySlot);
    HoldersGrant(s.records, r, rec, NestedSlot);
    HoldersGrant(s.records, r, rec, LifecycleSlot);
  }

  lemma GrantRecordOk(w: World, Q: set<nat>, r: nat, slot: Slot, i: nat, x: nat)
    requires Startable(w, i, r, slot) && Live(w, r)
    requires x in w.scheds[i].records && RecordOk(w, i, Q + {r}, x)
    ensures RecordOk(Admitted(w, r, slot), i, Q, x)
  {
  }

  lemma GrantQueueOk(w: World, r: nat, slot: Slot, i: nat)
    requires Startable(w, i, r, slot) && QueueOk(w, i) && CountsOk(w.scheds[i])
    ensures QueueOk(Admitted(w, r, slot), i)
  {
    GrantHolders(w.scheds[i], r, slot);
    var q := w.scheds[i].queue;
    assert forall k: nat :: k < |q| ==> q[k] in q && q[k] != r;
  }

  lemma GrantSched(w: World, Q: set<nat>, r: nat, slot: Slot, i: nat)
    requires Startable(w, i, r, slot) && SchedOk(w, i, Q + {r}) && Live(w, r)
    ensures SchedOk(Admitted(w, r, slot), i, Q)
  {
    hide RecordOk, QueueOk, CountsOk, Holders;
    var s := w.scheds[i];
    var v := Admitted(w, r, slot);
    var t := v.scheds[i];
    assert t.records.Keys == s.records.Keys && t.account == s.account;
    forall x | x in t.records
      ensures RecordOk(v, i, Q, x)
    {
      assert RecordOk(w, i, Q + {r}, x);
      GrantRecordOk(w, Q, r, slot, i, x);
    }
    GrantQueueOk(w, r, slot, i);
    assert s.records[r].slot.None?;
    GrantHolders(s, r, slot);
    assert LeasesOk(t) by {
      assert forall x :: x in t.records ==> t.records[x].lease == s.records[x].lease;
    }
    assert IdsOk(v, i);
  }

  lemma GrantOther(w: World, Q: set<nat>, r: nat, slot: Slot, i: nat, j: nat)
    requires Startable(w, i, r, slot) && j < |w.scheds| && j != i && SchedOk(w, j, Q + {r})
    ensures SchedOk(Admitted(w, r, slot), j, Q)
  {
    hide SchedOk;
    NotElsewhere(w, Q + {r}, r, j);
    OtherSched(w, Admitted(w, r, slot), Q + {r}, Q, j);
  }

  lemma GrantGood(w: World, P: set<nat>, Q: set<nat>, r: nat, slot: Slot, i: nat)
    requires Startable(w, i, r, slot) && Good(w, P, Q + {r}) && Live(w, r)
    ensures Good(Admitted(w, r, slot), P, Q)
  {
    var v := Admitted(w, r, slot);
    forall j: nat | j < |v.scheds|
      ensures SchedOk(v, j, Q)
    {
      assert SchedOk(w, j, Q + {r});
      if j == i {
        GrantSched(w, Q, r, slot, i);
      } else {
        GrantOther(w, Q, r, slot, i, j);
      }
    }
    ShapeKept(w, v);
    GrantTree(w, P, r, slot);
  }

  lemma GrantTree(w: World, P: set<nat>, r: nat, slot: Slot)
    requires TreeOk(w, P) && r < |w.ctxs| && w.ctxs[r].owner < |w.scheds| && r in w.scheds[w.ctxs[r].owner].records
    ensures TreeOk(Admitted(w, r, slot), P)
  {
    var v := Admitted(w, r, slot);
    forall p: nat, k: nat | p < |v.ctxs|
      ensures k in v.ctxs[p].children <==>
              k < |v.ctxs| && v.ctxs[k].parent == Some(p) && (Live(v, k) || k in P)
    {
      assert v.ctxs[p].children == w.ctxs[p].children;
    }
  }

  // --------------------------------------------------- glue for the recursion

  /** The world after `release` has let go of c's record, before it drains the queue. */
  function Dropped(w: World, c: nat): World {
    if c < |w.ctxs| && w.ctxs[c].owner < |w.scheds| then
      var s := w.scheds[w.ctxs[c].owner];
      if c in s.records && s.records[c].lease < |s.account.leases|
      then WithSched(w, w.ctxs[c].owner, DropRecord(s, c))
      else w
    else w
  }

  ghost predicate KeepsNoLostBut(w: World, v: World, i: nat) {
    |v.scheds| == |w.scheds| && forall j: nat :: j < |w.scheds| && j != i && NoLost(w.scheds[j]) ==> NoLost(v.scheds[j])
  }

  /** Nobody is below a context that was never handed out. */
  lemma {:induction false} NothingUnderUnresolved(w: World, r: nat, h: nat)
    requires Shape(w) && r < |w.ctxs| && !w.ctxs[r].resolved && Under(w.ctxs, r, h)
    ensures h == r
    decreases h
  {
    if h != r {
      assert ShapeAt(w, h);
      NothingUnderUnresolved(w, r, w.ctxs[h].parent.value);
    }
  }

  /** When every child in the snapshot has ended, c has no live child left. */
  lemma KidsDone(w: World, v: World, P: set<nat>, c: nat, env: Env)
    requires TreeOk(w, P) && c < |w.ctxs| && Evolves(w, v, env)
    requires forall k: nat :: k in w.ctxs[c].children && k < |w.ctxs| ==> Ended(v, k)
    ensures forall h: nat :: Live(v, h) ==> v.ctxs[h].parent != Some(c)
  {
    forall h: nat | Live(v, h)
      ensures v.ctxs[h].parent != Some(c)
    {
      assert CtxKept(w.ctxs[h], v.ctxs[h]);
      assert h in w.ctxs[c].children <==>
             h < |w.ctxs| && w.ctxs[h].parent == Some(c) && (Live(w, h) || h in P);
    }
  }

  /** A queued root that starts: pop and admit together are one allowed evolution. */
  lemma DrainAdmitEvolves(w: World, env: Env, i: nat, Q: set<nat>)
    requires i < |w.scheds| && w.scheds[i].queue != [] && !w.scheds[i].failed
    requires SchedOk(w, i, Q) && RecordOk(w, i, Q, w.scheds[i].queue[0])
    requires w.scheds[i].queue[0] < |w.ctxs| && RootFailure(w, w.scheds[i].queue[0], env).None?
    ensures
      var r := w.scheds[i].queue[0];
      var v := Admitted(WithSched(w, i, PopQueue(w.scheds[i])), r, OrdinarySlot);
      Evolves(w, v, env) && KeepsNoLostBut(w, v, i) && (forall out :: EndsOnly(w, v, env, None, out))
  {
    hide CountsOk, Holders, Under, LeasesOk, IdsOk, SchedKept, MayEnd;
    var r := w.scheds[i].queue[0];
    var v := Admitted(WithSched(w, i, PopQueue(w.scheds[i])), r, OrdinarySlot);
    assert r in w.scheds[i].queue;
    DrainAdmitKept(w, env, i, Q);
    forall j: nat | j < |w.scheds| && j != i
      ensures SchedKept(w, v, j, env)
    {
      SchedKeptSame(w, v, j, env);
    }
  }

  lemma SchedKeptSame(w: World, v: World, j: nat, env: Env)
    requires j < |w.scheds| && j < |v.scheds| && v.scheds[j] == w.scheds[j]
    ensures SchedKept(w, v, j, env)
  {
  }

  lemma DrainAdmitKept(w: World, env: Env, i: nat, Q: set<nat>)
    requires i < |w.scheds| && w.scheds[i].queue != [] && !w.scheds[i].failed
    requires SchedOk(w, i, Q) && RecordOk(w, i, Q, w.scheds[i].queue[0])
    requires w.scheds[i].queue[0] < |w.ctxs| && RootFailure(w, w.scheds[i].queue[0], env).None?
    ensures
      var r := w.scheds[i].queue[0];
      var v := Admitted(WithSched(w, i, PopQueue(w.scheds[i])), r, OrdinarySlot);
      SchedKept(w, v, i, env)
  {
    hide IdsOk, CountsOk, LeasesOk, Holders, HoldsLease;
    assert w.scheds[i].queue[0] in w.scheds[i].queue;
  }

  /** A queued root that fails its liveness check: the ends it causes are its own. */
  lemma DrainFailEnds(w: World, u: World, v: World, env: Env, i: nat, P: set<nat>, out: Outcome)
    requires Good(w, P, P) && i < |w.scheds| && w.scheds[i].queue != [] && !w.scheds[i].failed
    requires u == WithSched(w, i, PopQueue(w.scheds[i]))
    requires w.scheds[i].queue[0] < |w.ctxs|
    requires Live(w, w.scheds[i].queue[0]) ==> out == Failed(RootFailureOr(w, w.scheds[i].queue[0], env))
    requires Live(w, w.scheds[i].queue[0]) ==> RootFailure(w, w.scheds[i].queue[0], env).Some?
    requires EndsOnly(u, v, env, Some(w.scheds[i].queue[0]), out)
    requires Evolves(w, u, env) && Evolves(u, v, env) && Sane(v) && w.scheds[i].ordinary < 4
    ensures forall o :: EndsOnly(w, v, env, None, o)
  {
    var r := w.scheds[i].queue[0];
    assert SchedOk(w, i, P);
    assert r in w.scheds[i].queue;
    assert RecordOk(w, i, P, r);
    forall o, h: nat | Live(w, h) && Ended(v, h)
      ensures MayEnd(w, v, h, v.ctxs[h].terminal.value, env, None, o)
    {
      assert Live(u, h);
      assert MayEnd(u, v, h, v.ctxs[h].terminal.value, env, Some(r), out);
      if Under(u.ctxs, r, h) {
        NothingUnderUnresolved(w, r, h);
        PoppedInTurn(w, u, v, env, i, P);
      } else {
        EndLate(w, u, v, h, v.ctxs[h].terminal.value, env);
      }
      assert WaitingRootFails(w, v, h, v.ctxs[h].terminal.value, env);
    }
  }

  /** Taken from the head of the queue while a slot was free. */
  lemma QueueTail(w: World, i: nat)
    requires i < |w.scheds| && QueueOk(w, i) && w.scheds[i].queue != []
    ensures forall a :: a in w.scheds[i].queue[1..] ==> w.scheds[i].queue[0] < a && a in w.scheds[i].queue
  {
    hide Holders;
    var q := w.scheds[i].queue;
    forall a | a in q[1..]
      ensures q[0] < a && a in q
    {
      var k: nat :| k < |q| - 1 && q[1..][k] == a;
      assert q[0] < q[k + 1];
    }
  }

  lemma PoppedInTurn(w: World, u: World, v: World, env: Env, i: nat, P: set<nat>)
    requires Good(w, P, P) && i < |w.scheds| && w.scheds[i].queue != []
    requires w.scheds[i].queue[0] < |w.ctxs| && w.ctxs[w.scheds[i].queue[0]].owner == i
    requires u == WithSched(w, i, PopQueue(w.scheds[i]))
    requires Evolves(u, v, env) && Sane(v) && w.scheds[i].ordinary < 4
    ensures InTurn(w, v, w.scheds[i].queue[0])
  {
    hide RecordOk, CtxKept, RecordKept, LeasesKept, ShapeAt, IdsOk, LeasesOk;
    var q := w.scheds[i].queue;
    assert SchedOk(w, i, P);
    GoodSane(w, P, P);
    assert SchedKept(u, v, i, env);
    QueueTail(w, i);
    if v.scheds[i].ordinary >= 4 {
      assert Sane(u);
      var b := SlotTaken(u, v, i, env);
    }
  }

  function RootFailureOr(w: World, h: nat, env: Env): ErrorCode
    requires h < |w.ctxs|
  {
    if RootFailure(w, h, env).Some? then RootFailure(w, h, env).value else INTERNAL
  }

  lemma NoLostTrans(u: World, v: World, w: World, i: nat)
    requires KeepsNoLostBut(u, v, i) && KeepsNoLostBut(v, w, i)
    ensures KeepsNoLostBut(u, w, i)
  {
  }

  lemma OwnerInRange(w: World, P: set<nat>, Q: set<nat>, c: nat)
    requires Good(w, P, Q) && c < |w.ctxs|
    ensures w.ctxs[c].owner < |w.scheds|
    ensures w.ctxs[c].parent.Some? ==> w.ctxs[c].parent.value < c
    ensures c in w.scheds[w.ctxs[c].owner].records ==> RecordOk(w, w.ctxs[c].owner, Q, c)
    ensures forall j: nat :: j < |w.scheds| && c in w.scheds[j].records ==> j == w.ctxs[c].owner
    ensures Live(w, c) ==> c !in P
  {
    assert ShapeAt(w, c);
    var i := w.ctxs[c].owner;
    assert SchedOk(w, i, Q);
    forall j: nat | j < |w.scheds| && c in w.scheds[j].records
      ensures j == i
    {
      assert SchedOk(w, j, Q);
      assert RecordOk(w, j, Q, c);
    }
  }

  lemma LeaveLoop(w: World, v: World, P: set<nat>, c: nat, env: Env)
    requires TreeOk(w, P + {c}) && c < |w.ctxs| && c !in P && Evolves(w, v, env)
    requires forall k: nat :: k in w.ctxs[c].children && k < |w.ctxs| ==> Ended(v, k)
    requires Good(v, P + {c}, P + {c}) && Ended(v, c)
    ensures v.ctxs[c].parent.Some? ==> v.ctxs[c].parent.value < |v.ctxs|
    ensures Good(Unlink(v, c), P, P + {c})
    ensures Evolves(v, Unlink(v, c), env) && KeepsNoLost(v, Unlink(v, c))
    ensures forall out :: EndsOnly(v, Unlink(v, c), env, None, out)
    ensures Ended(Unlink(v, c), c)
  {
    KidsDone(w, v, P + {c}, c, env);
    UnlinkGood(v, P, P + {c}, c);
    UnlinkEvolves(v, env, c);
  }

  lemma NoLostCompose(u: World, v: World, w: World)
    requires KeepsNoLost(u, v) && KeepsNoLost(v, w)
    ensures KeepsNoLost(u, w)
  {
  }

  lemma EndsNone(w: World, v: World, env: Env, out: Outcome, out': Outcome)
    requires EndsOnly(w, v, env, None, out)
    ensures EndsOnly(w, v, env, None, out')
  {
  }

  lemma EvolvesEnded(w: World, v: World, env: Env)
    requires Evolves(w, v, env)
    ensures |w.ctxs| == |v.ctxs| && |w.scheds| == |v.scheds|
    ensures forall c: nat :: Ended(w, c) ==> Ended(v, c) && w.ctxs[c].terminal == v.ctxs[c].terminal
    ensures forall c: nat :: c < |w.ctxs| ==>
      v.ctxs[c].owner == w.ctxs[c].owner && v.ctxs[c].parent == w.ctxs[c].parent
    ensures forall i: nat :: i < |w.scheds| ==>
      v.scheds[i].failed == w.scheds[i].failed && v.scheds[i].reaped == w.scheds[i].reaped
      && |v.scheds[i].queue| <= |w.scheds[i].queue|
      && (forall r :: r in v.scheds[i].records ==> r in w.scheds[i].records)
    ensures LiveCount(v.ctxs) <= LiveCount(w.ctxs)
  {
    LiveCountMono(w.ctxs, v.ctxs);
    forall i: nat | i < |w.scheds|
      ensures v.scheds[i].failed == w.scheds[i].failed && v.scheds[i].reaped == w.scheds[i].reaped
      && |v.scheds[i].queue| <= |w.scheds[i].queue|
      && (forall r :: r in v.scheds[i].records ==> r in w.scheds[i].records)
    {
      assert SchedKept(w, v, i, env);
      forall r | r in v.scheds[i].records
        ensures r in w.scheds[i].records
      {
        assert RecordKept(w, i, r, v.scheds[i].records[r], env);
      }
    }
  }

  lemma Unchanged(w: World, env: Env, top: Option<nat>, out: Outcome)
    ensures Evolves(w, w, env) && KeepsNoLost(w, w) && EndsOnly(w, w, env, top, out)
    ensures forall i :: KeepsNoLostBut(w, w, i)
  {
  }

  lemma GoodTree(w: World, P: set<nat>, Q: set<nat>)
    requires Good(w, P, Q)
    ensures TreeOk(w, P) && Shape(w)
  {
  }

  lemma ChildFacts(w0: World, w1: World, P: set<nat>, c: nat, h: nat)
    requires c < |w0.ctxs| && exists out :: w1 == SetTerminal(w0, c, out)
    requires Good(w1, P + {c}, P + {c}) && h in w1.ctxs[c].children
    ensures h < |w0.ctxs| && w0.ctxs[h].parent == Some(c) && c < h
  {
    assert h in w1.ctxs[c].children <==>
           h < |w1.ctxs| && w1.ctxs[h].parent == Some(c) && (Live(w1, h) || h in P + {c});
    assert ShapeAt(w1, h);
  }

  lemma DropNoLost(w: World, c: nat, v: World)
    requires c < |w.ctxs| && w.ctxs[c].owner < |w.scheds|
    requires KeepsNoLostBut(Dropped(w, c), v, w.ctxs[c].owner)
    requires |v.scheds| == |w.scheds| && NoLost(v.scheds[w.ctxs[c].owner])
    ensures KeepsNoLost(w, v)
  {
  }

  lemma PoppedFacts(w: World, u: World, P: set<nat>, i: nat, env: Env)
    requires Good(w, P, P) && i < |w.scheds| && w.scheds[i].queue != [] && !w.scheds[i].failed
    requires w.scheds[i].ordinary < 4
    requires u == WithSched(w, i, PopQueue(w.scheds[i]))
    requires StartReady(u, i, w.scheds[i].queue[0], OrdinarySlot)
    ensures
      var r := w.scheds[i].queue[0];
      && r < |w.ctxs|
      && SchedOk(w, i, P)
      && r in w.scheds[i].records
      && RecordOk(w, i, P, r)
      && w.ctxs[r].owner == i
      && Startable(u, i, r, OrdinarySlot)
      && (Ended(u, r) ==> r in P)
      && (Live(w, r) ==> Liveness(u.ctxs, r, env) == RootFailure(w, r, env))
      && (Ended(w, r) ==> Liveness(u.ctxs, r, env).Some?)
  {
    var r := w.scheds[i].queue[0];
    assert SchedOk(w, i, P);
    assert r in w.scheds[i].queue;
    assert RecordOk(w, i, P, r);
  }

  lemma DrainFailed(w: World, u: World, v: World, env: Env, i: nat, P: set<nat>)
    requires Good(w, P, P) && i < |w.scheds| && w.scheds[i].queue != [] && !w.scheds[i].failed
    requires u == WithSched(w, i, PopQueue(w.scheds[i]))
    requires w.scheds[i].queue[0] < |w.ctxs| && Liveness(u.ctxs, w.scheds[i].queue[0], env).Some?
    requires Live(w, w.scheds[i].queue[0]) ==>
      Liveness(u.ctxs, w.scheds[i].queue[0], env) == RootFailure(w, w.scheds[i].queue[0], env)
    requires EndsOnly(u, v, env, Some(w.scheds[i].queue[0]), Failed(Liveness(u.ctxs, w.scheds[i].queue[0], env).value))
    requires Evolves(u, v, env) && KeepsNoLost(u, v) && Sane(v) && w.scheds[i].ordinary < 4
    ensures Evolves(w, v, env) && KeepsNoLostBut(w, v, i) && EndsOnly(w, v, env, None, Complete)
    ensures |v.scheds| == |w.scheds| && |v.scheds[i].queue| < |w.scheds[i].queue|
  {
    PopEvolves(w, env, i);
    EvolvesEnded(u, v, env);
    EvolvesTrans(w, u, v, env);
    DrainFailEnds(w, u, v, env, i, P, Failed(Liveness(u.ctxs, w.scheds[i].queue[0], env).value));
  }

  lemma OrdinaryAtMostFour(w: World, P: set<nat>, Q: set<nat>, i: nat)
    requires Good(w, P, Q) && i < |w.scheds|
    ensures w.scheds[i].ordinary <= 4
  {
    assert SchedOk(w, i, Q);
  }
}
