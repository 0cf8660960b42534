/** Whether an instance whose disposal has finished can still have an active dependent:
    no step but the noting of a dependency can bring that about, and each such step does
    or does not. */
module Dependents {
  import opened Resolution
  import opened Lifecycles
  import opened Disposal

  predicate Active(h: Host, x: nat) {
    x < |h.instances| && h.instances[x].state == ACTIVE
  }

  predicate Done(h: Host, x: nat) {
    x < |h.instances| && h.instances[x].stage == Finished
  }

  /** x depends on d through n dependencies. */
  ghost predicate Reaches(h: Host, x: nat, d: nat, n: nat)
    decreases n
  {
    if n == 0 then x == d
    else exists y: nat :: DependsOn(h, x, y) && Reaches(h, y, d, n - 1)
  }

  /** The law: no instance that depends on a finished one, however indirectly, is
      active. */
  ghost predicate NoneActiveAbove(h: Host) {
    forall x: nat, d: nat, n: nat :: Done(h, d) && Reaches(h, x, d, n) ==> !Active(h, x)
  }

  // ---------------------------------------------------- every step but the joins

  ghost predicate AllActive(h: Host, x: nat) {
    forall d: nat :: DependsOn(h, x, d) ==> Active(h, d)
  }

  /** What happens to the graph of dependencies while none is added: a disposal goes past
      an instance only if it does not depend on the disposed one or is done itself, and
      an instance becomes active only on active ones. */
  ghost predicate Onward(h: Host, g: Host) {
    && |h.instances| <= |g.instances|
    && (forall x: nat, d: nat :: DependsOn(g, x, d) <==> DependsOn(h, x, d))
    && (forall x: nat :: Done(h, x) ==> Done(g, x))
    && (forall d: nat, x: nat :: d < |h.instances| && DependsOn(h, x, d) && Passed(g.instances[d], x) ==>
          Passed(h.instances[d], x) || Done(h, x))
    && (forall x: nat :: x < |h.instances| && EverActive(g.instances[x]) ==> EverActive(h.instances[x]) || AllActive(h, x))
    && (forall x: nat :: Active(g, x) ==> Active(h, x) || AllActive(h, x))
  }

  /** One instance is replaced by one that depends on the same and is no more active. */
  ghost predicate Fades(h: Host, i: nat, y: Instance) {
    && i < |h.instances|
    && y.dependencies == h.instances[i].dependencies
    && (EverActive(y) ==> EverActive(h.instances[i]))
    && (y.state == ACTIVE ==> h.instances[i].state == ACTIVE)
    && (h.instances[i].stage == Finished ==> y.stage == Finished)
    && (forall n: nat :: DependsOn(h, n, i) && Passed(y, n) ==> Passed(h.instances[i], n) || Done(h, n))
  }

  lemma FadesOnward(h: Host, i: nat, g: Host)
    requires i < |h.instances| && i < |g.instances| && g.instances == h.instances[i := g.instances[i]] && Fades(h, i, g.instances[i])
    ensures Onward(h, g)
  {
    hide EverActive, Passed;
  }

  lemma SameInstances(h: Host, g: Host)
    requires g.instances == h.instances
    ensures Onward(h, g)
  {
    hide EverActive, Passed;
  }

  /** The phases, calls, registrations and grants of g do not matter. */
  lemma OnwardTo(h: Host, g: Host, k: Host)
    requires Onward(h, g) && k.instances == g.instances
    ensures Onward(h, k)
  {
    hide EverActive, Passed;
    assert forall x: nat, d: nat :: DependsOn(k, x, d) <==> DependsOn(g, x, d);
    assert forall x: nat :: (Done(k, x) <==> Done(g, x)) && (Active(k, x) <==> Active(g, x));
  }

  lemma DisposeOnward(h: Host, i: nat)
    requires i < |h.instances|
    ensures Onward(h, Dispose(h, i))
  {
    var x := h.instances[i];
    if x.stage != NotBegun || Ended(x) {
      SameInstances(h, h);
    } else {
      FadesOnward(h, i, Dispose(h, i));
    }
  }

  lemma ThrowsOnward(h: Host, t: nat)
    requires Busy(h, t)
    ensures Onward(h, Throws(h, t))
  {
    hide Onward;
    DisposeOnward(h, h.activations[t].instance);
    ThrowsDisposes(h, t);
    OnwardTo(h, Dispose(h, h.activations[t].instance), Throws(h, t));
  }

  lemma ThrowsDisposes(h: Host, t: nat)
    requires Busy(h, t)
    ensures Throws(h, t).instances == Dispose(h, h.activations[t].instance).instances
  {
  }

  lemma PublishOnward(h: Host, t: nat)
    requires Busy(h, t)
    ensures Onward(h, Publish(h, t))
  {
    if Ready(h, t) {
      hide Passed;
      var i := h.activations[t].instance;
      var g := Publish(h, t);
      assert AllActive(h, i);
      assert g.instances == h.instances[i := To(h.instances[i], ACTIVE)];
      SameStages(h.instances[i], g.instances[i]);
    } else {
      ThrowsOnward(h, t);
    }
  }

  lemma SameStages(x: Instance, y: Instance)
    requires x.stage == y.stage
    ensures forall n :: Passed(x, n) == Passed(y, n)
  {
  }

  lemma EnterOnward(h: Host, t: nat)
    requires Busy(h, t)
    ensures Onward(h, Enter(h, t))
  {
    var i := h.activations[t].instance;
    if h.instances[i].state == VERIFIED {
      SameStages(h.instances[i], Enter(h, t).instances[i]);
      hide Passed;
      FadesOnward(h, i, Enter(h, t));
    } else {
      ThrowsOnward(h, t);
    }
  }

  lemma ChooseOnward(h: Host, t: nat, k: nat, p: nat)
    requires Busy(h, t) && p < |h.instances|
    ensures Onward(h, Choose(h, t, k, p))
  {
    hide Onward, Throws;
    ThrowsOnward(h, t);
    if Choose(h, t, k, p) != Throws(h, t) {
      SameInstances(h, Choose(h, t, k, p));
    }
  }

  /** The loop over dependents goes past one only if it is not one or is done. */
  lemma SweepOnward(h: Host, i: nat, g: Host)
    requires i < |h.instances| && Sweeps(h, i, g)
    ensures Onward(h, g)
  {
    hide Onward, Dispose;
    var x := h.instances[i];
    var n := x.stage.next;
    if n < |h.instances| && i in h.instances[n].dependencies && h.instances[n].stage != Finished {
      DisposeOnward(h, n);
    } else {
      FadesOnward(h, i, g);
    }
  }

  lemma UndoOnward(h: Host, i: nat, failures: bool, y: Instance)
    requires i < |h.instances| && Undoes(h.instances[i], failures, y)
    ensures Onward(h, Put(h, i, y))
  {
    hide Onward;
    FadesOnward(h, i, Put(h, i, y));
  }

  /** Nothing but effects or the question changes. */
  lemma AsideOnward(h: Host, i: nat, g: Host)
    requires i < |h.instances| && i < |g.instances| && g.instances == h.instances[i := g.instances[i]]
    requires
      var x, y := h.instances[i], g.instances[i];
      y == x.(effects := y.effects, begun := y.begun, asked := y.asked)
    ensures Onward(h, g)
  {
    hide Onward, Passed;
    SameStages(h.instances[i], g.instances[i]);
    SameHistory(h.instances[i], g.instances[i]);
    hide EverActive;
    FadesOnward(h, i, g);
  }

  lemma DiscoverOnward(h: Host, needs: nat)
    ensures Onward(h, h.(instances := h.instances + [Discovered(needs)]))
  {
    var g := h.(instances := h.instances + [Discovered(needs)]);
    hide EverActive, Passed;
    assert forall x: nat :: x < |h.instances| ==> g.instances[x] == h.instances[x];
  }

  lemma StepOnward(h: Host, e: Event, g: Host)
    requires Step(h, e, g) && !e.Joins?
    ensures Onward(h, g)
  {
    hide Onward, Dispose, Throws, Undoes, Choose, Publish, Enter, Sweeps, EverActive;
    match e
    case Discovers(needs) => DiscoverOnward(h, needs);
    case Chooses(t, p) => ChooseOnward(h, t, h.activations[t].phase.k, p);
    case Enters(t) => EnterOnward(h, t);
    case Publishes(t) => PublishOnward(h, t);
    case Fails(t) => ThrowsOnward(h, t);
    case Disposes(i) => DisposeOnward(h, i);
    case SweepTurn(i) => SweepOnward(h, i, g);
    case UndoTurn(i, failures) =>
      var y :| Undoes(h.instances[i], failures, y) && g == Put(h, i, y);
      UndoOnward(h, i, failures, y);
    case _ => QuietOnward(h, e, g);
  }

  lemma QuietOnward(h: Host, e: Event, g: Host)
    requires Step(h, e, g)
    requires e.Begins? || e.Provides? || e.Owns? || e.Removes? || e.Cleans? || e.Settles? || e.Invokes? || e.Returns? || e.Empowers?
    ensures Onward(h, g)
  {
    hide Onward, Dispose, Throws, Undoes, Choose, Publish, Enter, Sweeps, EverActive;
    if e.Begins? || e.Provides? || e.Owns? || e.Cleans? || e.Settles? {
      if g.instances == h.instances {
        SameInstances(h, g);
      } else {
        AsideOnward(h, e.i, g);
      }
    } else {
      SameInstances(h, g);
    }
  }

  // ------------------------------------------------------------- nobody is missed

  /** A disposal that has gone past a dependent which was ever active has seen it done. */
  ghost predicate NobodyMissed(h: Host) {
    forall x: nat, d: nat :: DependsOn(h, x, d) && d < |h.instances| && EverActive(h.instances[x]) && Passed(h.instances[d], x)
      ==> Done(h, x)
  }

  lemma ActiveNotBegun(h: Host, x: nat)
    requires Books(h) && Active(h, x)
    ensures !Done(h, x) && EverActive(h.instances[x]) && forall n: nat :: !Passed(h.instances[x], n)
  {
    hide Path, EffectsOk;
    assert InstanceOk(h.instances[x]);
  }

  lemma OnwardMisses(h: Host, g: Host)
    requires Books(h) && NobodyMissed(h) && Onward(h, g)
    ensures NobodyMissed(g)
  {
    hide EverActive, Passed, AllOk, OwnOk;
    forall x: nat, d: nat | DependsOn(g, x, d) && d < |g.instances| && EverActive(g.instances[x]) && Passed(g.instances[d], x)
      ensures Done(g, x)
    {
      assert DependsOn(h, x, d);
      if !Done(h, x) && !EverActive(h.instances[x]) {
        ActiveNotBegun(h, d);
      }
    }
  }

  /** What is to be asked when the provider's activation has been awaited: has the
      consumer never been active, or is it done with, or has the provider's disposal not
      come to it yet? */
  predicate SafeJoin(h: Host, i: nat, p: nat)
    requires i < |h.instances| && p < |h.instances|
  {
    !EverActive(h.instances[i]) || Done(h, i) || !Passed(h.instances[p], i)
  }

  lemma JoinGraph(h: Host, t: nat, k: nat, p: nat)
    requires Busy(h, t)
    ensures
      var g, i := Join(h, t, k, p), h.activations[t].instance;
      && |g.instances| == |h.instances|
      && (forall x: nat, d: nat :: DependsOn(g, x, d) <==> DependsOn(h, x, d) || (x == i && d == p))
      && (forall x: nat :: x < |h.instances| ==>
            g.instances[x].stage == h.instances[x].stage && g.instances[x].state == h.instances[x].state
            && g.instances[x].history == h.instances[x].history)
  {
  }

  lemma JoinMisses(h: Host, t: nat, k: nat, p: nat)
    requires NobodyMissed(h) && Busy(h, t) && p < |h.instances|
    ensures NobodyMissed(Join(h, t, k, p)) <==> SafeJoin(h, h.activations[t].instance, p)
  {
    hide Join;
    JoinGraph(h, t, k, p);
    var g, i := Join(h, t, k, p), h.activations[t].instance;
    forall x: nat | x < |h.instances|
      ensures EverActive(g.instances[x]) == EverActive(h.instances[x]) && Done(g, x) == Done(h, x)
      ensures forall n :: Passed(g.instances[x], n) == Passed(h.instances[x], n)
    {
      SameHistory(h.instances[x], g.instances[x]);
      SameStages(h.instances[x], g.instances[x]);
    }
    hide EverActive, Passed;
    assert DependsOn(g, i, p);
    if SafeJoin(h, i, p) {
      forall x: nat, d: nat | DependsOn(g, x, d) && d < |g.instances| && EverActive(g.instances[x]) && Passed(g.instances[d], x)
        ensures Done(g, x)
      {
        assert (x == i && d == p) || DependsOn(h, x, d);
      }
    }
  }

  /** The consumer and the provider of a join. */
  ghost predicate JoinIs(h: Host, e: Event, i: nat, k: nat, p: nat) {
    && e.Joins? && Busy(h, e.t) && h.activations[e.t].phase == Awaiting(k, p)
    && i == h.activations[e.t].instance && p < |h.instances|
  }

  ghost predicate AllSafe(hs: seq<Host>, es: seq<Event>)
    requires |hs| == |es| + 1
  {
    forall n: nat, i: nat, k: nat, p: nat :: n < |es| && JoinIs(hs[n], es[n], i, k, p) ==> SafeJoin(hs[n], i, p)
  }

  lemma EmptyMisses(h: Host)
    requires h.instances == []
    ensures NobodyMissed(h)
  {
  }

  lemma StepMisses(h: Host, e: Event, g: Host)
    requires Books(h) && NobodyMissed(h) && Step(h, e, g)
    ensures NobodyMissed(g) <==> forall i: nat, k: nat, p: nat :: JoinIs(h, e, i, k, p) ==> SafeJoin(h, i, p)
  {
    hide NobodyMissed, SafeJoin, Books, Join;
    if e.Joins? {
      var t := e.t;
      JoinMisses(h, t, h.activations[t].phase.k, h.activations[t].phase.provider);
      assert JoinIs(h, e, h.activations[t].instance, h.activations[t].phase.k, h.activations[t].phase.provider);
    } else {
      hide Step;
      StepOnward(h, e, g);
      OnwardMisses(h, g);
    }
  }

  /** In any run nobody is ever missed exactly when every join is safe. */
  lemma {:induction false} NobodyMissedExactly(hs: seq<Host>, es: seq<Event>)
    requires Run(hs, es)
    ensures (forall n: nat :: n < |hs| ==> NobodyMissed(hs[n])) <==> AllSafe(hs, es)
  {
    hide NobodyMissed, SafeJoin, Step, Books;
    if forall n: nat :: n < |hs| ==> NobodyMissed(hs[n]) {
      forall n: nat, i: nat, k: nat, p: nat | n < |es| && JoinIs(hs[n], es[n], i, k, p)
        ensures SafeJoin(hs[n], i, p)
      {
        RunKeeps(hs, es, n);
        assert Step(hs[n], es[n], hs[n + 1]) && NobodyMissed(hs[n + 1]);
        StepMisses(hs[n], es[n], hs[n + 1]);
      }
    }
    if AllSafe(hs, es) {
      forall n: nat | n < |hs|
        ensures NobodyMissed(hs[n])
      {
        SafeMisses(hs, es, n);
      }
    }
  }

  lemma {:induction false} SafeMisses(hs: seq<Host>, es: seq<Event>, n: nat)
    requires Run(hs, es) && AllSafe(hs, es) && n < |hs|
    ensures NobodyMissed(hs[n])
  {
    hide NobodyMissed, SafeJoin, Step, JoinIs, Books;
    if n == 0 {
      EmptyMisses(hs[0]);
    } else {
      SafeMisses(hs, es, n - 1);
      RunKeeps(hs, es, n - 1);
      assert Step(hs[n - 1], es[n - 1], hs[n - 1 + 1]);
      StepMisses(hs[n - 1], es[n - 1], hs[n]);
    }
  }

  // ----------------------------------------------------------- nobody is left behind

  /** An order in which disposals can finish without anybody else: each waits only for
      earlier ones. */
  ghost predicate Schedule(h: Host, rank: map<nat, nat>) {
    && (forall m :: m in rank ==> m < |h.instances|)
    && (forall m: nat, n: nat :: m in rank && DependsOn(h, n, m) && !Passed(h.instances[m], n) ==> n in rank && rank[n] < rank[m])
  }

  /** No active instance can be left out while something it depends on finishes. */
  ghost predicate NobodyLeftBehind(h: Host) {
    forall rank: map<nat, nat>, x: nat, d: nat, n: nat ::
      Schedule(h, rank) && d in rank && Active(h, x) && Reaches(h, x, d, n) ==> x in rank
  }

  lemma DonePassed(h: Host, m: nat)
    requires Done(h, m)
    ensures forall n: nat :: Passed(h.instances[m], n)
  {
  }

  /** The same schedule, before what has been done in the meantime. */
  ghost function Earlier(h: Host, rank: map<nat, nat>): map<nat, nat> {
    map m: nat | m < |h.instances| && (m in rank || Done(h, m)) :: if Done(h, m) then 0 else rank[m] + 1
  }

  lemma ScheduleBack(h: Host, g: Host, rank: map<nat, nat>)
    requires Onward(h, g) && Schedule(g, rank)
    ensures Schedule(h, Earlier(h, rank))
  {
    hide Passed, EverActive;
    var earlier := Earlier(h, rank);
    forall m: nat, n: nat | m in earlier && DependsOn(h, n, m) && !Passed(h.instances[m], n)
      ensures n in earlier && earlier[n] < earlier[m]
    {
      if Done(h, m) { DonePassed(h, m); }
      assert DependsOn(g, n, m);
    }
  }

  lemma {:induction false} ReachesSame(h: Host, g: Host, x: nat, d: nat, n: nat)
    requires forall a: nat, b: nat :: DependsOn(g, a, b) ==> DependsOn(h, a, b)
    requires Reaches(g, x, d, n)
    ensures Reaches(h, x, d, n)
    decreases n
  {
    hide DependsOn;
    if n > 0 {
      var y: nat :| DependsOn(g, x, y) && Reaches(g, y, d, n - 1);
      ReachesSame(h, g, y, d, n - 1);
    }
  }

  lemma {:induction false} ReachedExists(h: Host, x: nat, d: nat, n: nat)
    requires Books(h) && x < |h.instances| && Reaches(h, x, d, n)
    ensures d < |h.instances|
    decreases n
  {
    hide AllOk, OwnOk, EverActive;
    if n > 0 {
      var y: nat :| DependsOn(h, x, y) && Reaches(h, y, d, n - 1);
      ReachedExists(h, y, d, n - 1);
    }
  }

  lemma OnwardLeaves(h: Host, g: Host)
    requires Books(h) && Books(g) && NobodyLeftBehind(h) && Onward(h, g)
    ensures NobodyLeftBehind(g)
  {
    hide Books, NobodyLeftBehind, Onward, Reaches, Schedule;
    forall rank: map<nat, nat>, x: nat, d: nat, n: nat | Schedule(g, rank) && d in rank && Active(g, x) && Reaches(g, x, d, n)
      ensures x in rank
    {
      OnwardTakes(h, g, rank, x, d, n);
    }
    assert NobodyLeftBehind(g) by { NobodyIs(g); }
  }

  /** The definition, for those who have hidden it. */
  lemma NobodyIs(h: Host)
    requires forall rank: map<nat, nat>, x: nat, d: nat, n: nat ::
               Schedule(h, rank) && d in rank && Active(h, x) && Reaches(h, x, d, n) ==> x in rank
    ensures NobodyLeftBehind(h)
  {
    hide Schedule, Reaches, Active;
  }

  lemma NobodySays(h: Host, rank: map<nat, nat>, x: nat, d: nat, n: nat)
    requires NobodyLeftBehind(h) && Schedule(h, rank) && d in rank && Active(h, x) && Reaches(h, x, d, n)
    ensures x in rank
  {
    hide Schedule, Reaches, Active;
  }

  lemma OnwardTakes(h: Host, g: Host, rank: map<nat, nat>, x: nat, d: nat, n: nat)
    requires Books(h) && Books(g) && NobodyLeftBehind(h) && Onward(h, g)
    requires Schedule(g, rank) && d in rank && Active(g, x) && Reaches(g, x, d, n)
    ensures x in rank
  {
    hide Books, NobodyLeftBehind, Schedule, Passed, EverActive;
    if n > 0 {
      ActiveNotBegun(g, x);
      ScheduleBack(h, g, rank);
      ReachesSame(h, g, x, d, n);
      ReachedExists(h, x, d, n);
      if Active(h, x) {
        NobodySays(h, Earlier(h, rank), x, d, n);
      } else {
        var y: nat :| DependsOn(h, x, y) && Reaches(h, y, d, n - 1);
        hide Reaches;
        NobodySays(h, Earlier(h, rank), y, d, n - 1);
        NewlyActive(h, g, rank, x, y);
      }
    }
  }

  /** Who has just become active stands on active ones, none of which has passed it. */
  lemma NewlyActive(h: Host, g: Host, rank: map<nat, nat>, x: nat, y: nat)
    requires Books(h) && Books(g) && Onward(h, g) && Schedule(g, rank)
    requires Active(g, x) && !Active(h, x) && DependsOn(h, x, y) && y in Earlier(h, rank)
    ensures x in rank
  {
    hide Books, Passed, EverActive;
    ActiveNotBegun(g, x);
    ActiveNotBegun(h, y);
    assert DependsOn(g, x, y);
  }

  /** The law itself holds where nobody is left behind. */
  lemma NobodyIsAbove(h: Host)
    requires Books(h) && NobodyLeftBehind(h)
    ensures NoneActiveAbove(h)
  {
    hide Books, NobodyLeftBehind, Reaches;
    forall x: nat, d: nat, n: nat | Done(h, d) && Reaches(h, x, d, n)
      ensures !Active(h, x)
    {
      if Active(h, x) {
        DonePassed(h, d);
        NobodySays(h, map[d := 0], x, d, n);
        ActiveNotBegun(h, x);
      }
    }
  }

  /** Where nobody has been missed, nobody can be left behind. */
  lemma MissedOrLeft(h: Host)
    requires Books(h) && NobodyMissed(h)
    ensures NobodyLeftBehind(h)
  {
    hide Books, NobodyMissed, Reaches, Schedule, NobodyLeftBehind;
    forall rank: map<nat, nat>, x: nat, d: nat, n: nat | Schedule(h, rank) && d in rank && Active(h, x) && Reaches(h, x, d, n)
      ensures x in rank
    {
      ActiveNotBegun(h, x);
      Upwards(h, rank, x, d, n);
    }
    NobodyIs(h);
  }

  lemma {:induction false} Upwards(h: Host, rank: map<nat, nat>, x: nat, d: nat, n: nat)
    requires Books(h) && NobodyMissed(h) && Schedule(h, rank) && (d in rank || Done(h, d)) && Reaches(h, x, d, n)
    requires x < |h.instances| && EverActive(h.instances[x])
    ensures x in rank || Done(h, x)
    decreases n
  {
    hide AllOk, OwnOk, EverActive, Passed;
    if n > 0 {
      var y: nat :| DependsOn(h, x, y) && Reaches(h, y, d, n - 1);
      Upwards(h, rank, y, d, n - 1);
      if Done(h, y) { DonePassed(h, y); }
    }
  }

  // ----------------------------------------------------------------- joins, exactly

  /** A join that leaves nobody behind: no active instance that hangs on the consumer can
      be left out while something the provider hangs on finishes. */
  ghost predicate HarmlessJoin(h: Host, t: nat, k: nat, p: nat)
    requires Busy(h, t)
  {
    forall rank: map<nat, nat>, x: nat, d: nat, a: nat, b: nat ::
      Schedule(Join(h, t, k, p), rank) && d in rank && Active(h, x) && Reaches(h, x, h.activations[t].instance, a) && Reaches(h, p, d, b)
      ==> x in rank
  }

  lemma HarmlessSays(h: Host, t: nat, k: nat, p: nat, rank: map<nat, nat>, x: nat, d: nat, a: nat, b: nat)
    requires Busy(h, t) && HarmlessJoin(h, t, k, p)
    requires Schedule(Join(h, t, k, p), rank) && d in rank && Active(h, x) && Reaches(h, x, h.activations[t].instance, a) && Reaches(h, p, d, b)
    ensures x in rank
  {
    hide Schedule, Reaches, Active, Join;
  }

  lemma {:induction false} PathsJoin(h: Host, g: Host, x: nat, i: nat, p: nat, d: nat, a: nat, b: nat)
    requires forall m: nat, n: nat :: DependsOn(h, m, n) ==> DependsOn(g, m, n)
    requires DependsOn(g, i, p) && Reaches(h, x, i, a) && Reaches(h, p, d, b)
    ensures Reaches(g, x, d, a + 1 + b)
    decreases a
  {
    hide DependsOn;
    if a == 0 {
      ReachesSame(g, h, p, d, b);
    } else {
      var y: nat :| DependsOn(h, x, y) && Reaches(h, y, i, a - 1);
      PathsJoin(h, g, y, i, p, d, a - 1, b);
    }
  }

  /** A path over the new edge has an old path on either side of it. */
  lemma {:induction false} PathsSplit(h: Host, g: Host, x: nat, i: nat, p: nat, d: nat, n: nat)
    requires forall m: nat, n: nat :: DependsOn(g, m, n) ==> DependsOn(h, m, n) || (m == i && n == p)
    requires Reaches(g, x, d, n)
    ensures Reaches(h, x, d, n) || ((exists a: nat :: Reaches(h, x, i, a)) && exists b: nat :: Reaches(h, p, d, b))
    decreases n
  {
    hide DependsOn;
    if n > 0 {
      var y: nat :| DependsOn(g, x, y) && Reaches(g, y, d, n - 1);
      PathsSplit(h, g, y, i, p, d, n - 1);
      if DependsOn(h, x, y) {
        if !Reaches(h, y, d, n - 1) {
          var a: nat :| Reaches(h, y, i, a);
          assert Reaches(h, x, i, a + 1);
        }
      } else {
        assert Reaches(h, x, i, 0);
      }
    }
  }

  lemma JoinLeaves(h: Host, t: nat, k: nat, p: nat)
    requires NobodyLeftBehind(h) && Busy(h, t) && p < |h.instances|
    ensures NobodyLeftBehind(Join(h, t, k, p)) <==> HarmlessJoin(h, t, k, p)
  {
    hide Join, NobodyLeftBehind, HarmlessJoin, Reaches, Schedule;
    JoinGraph(h, t, k, p);
    var g, i := Join(h, t, k, p), h.activations[t].instance;
    if NobodyLeftBehind(g) {
      forall rank: map<nat, nat>, x: nat, d: nat, a: nat, b: nat |
        Schedule(g, rank) && d in rank && Active(h, x) && Reaches(h, x, i, a) && Reaches(h, p, d, b)
        ensures x in rank
      {
        PathsJoin(h, g, x, i, p, d, a, b);
        NobodySays(g, rank, x, d, a + 1 + b);
      }
      HarmlessIs(h, t, k, p);
    }
    if HarmlessJoin(h, t, k, p) {
      forall rank: map<nat, nat>, x: nat, d: nat, n: nat | Schedule(g, rank) && d in rank && Active(g, x) && Reaches(g, x, d, n)
        ensures x in rank
      {
        PathsSplit(h, g, x, i, p, d, n);
        if Reaches(h, x, d, n) {
          FewerEdges(h, g, rank);
          NobodySays(h, rank, x, d, n);
        } else {
          var a: nat :| Reaches(h, x, i, a);
          var b: nat :| Reaches(h, p, d, b);
          HarmlessSays(h, t, k, p, rank, x, d, a, b);
        }
      }
      NobodyIs(g);
    }
  }

  lemma HarmlessIs(h: Host, t: nat, k: nat, p: nat)
    requires Busy(h, t)
    requires forall rank: map<nat, nat>, x: nat, d: nat, a: nat, b: nat ::
      Schedule(Join(h, t, k, p), rank) && d in rank && Active(h, x) && Reaches(h, x, h.activations[t].instance, a) && Reaches(h, p, d, b)
      ==> x in rank
    ensures HarmlessJoin(h, t, k, p)
  {
    hide Join, Reaches, Schedule, Active;
  }

  lemma FewerEdges(h: Host, g: Host, rank: map<nat, nat>)
    requires |g.instances| == |h.instances| && Schedule(g, rank)
    requires forall x: nat, d: nat :: DependsOn(h, x, d) ==> DependsOn(g, x, d)
    requires forall x: nat :: x < |h.instances| ==> g.instances[x].stage == h.instances[x].stage
    ensures Schedule(h, rank)
  {
    hide DependsOn;
    forall x: nat | x < |h.instances|
      ensures forall n: nat :: Passed(g.instances[x], n) == Passed(h.instances[x], n)
    {
      SameStages(h.instances[x], g.instances[x]);
    }
  }

  ghost predicate AllHarmless(hs: seq<Host>, es: seq<Event>)
    requires |hs| == |es| + 1
  {
    forall n: nat, i: nat, k: nat, p: nat :: n < |es| && JoinIs(hs[n], es[n], i, k, p) ==> HarmlessJoin(hs[n], es[n].t, k, p)
  }

  lemma EmptyLeaves(h: Host)
    requires h.instances == []
    ensures NobodyLeftBehind(h)
  {
  }

  lemma StepLeaves(h: Host, e: Event, g: Host)
    requires Books(h) && NobodyLeftBehind(h) && Step(h, e, g)
    ensures NobodyLeftBehind(g) <==> forall i: nat, k: nat, p: nat :: JoinIs(h, e, i, k, p) ==> HarmlessJoin(h, e.t, k, p)
  {
    hide NobodyLeftBehind, HarmlessJoin, Books, Join;
    if e.Joins? {
      var t := e.t;
      JoinLeaves(h, t, h.activations[t].phase.k, h.activations[t].phase.provider);
      assert JoinIs(h, e, h.activations[t].instance, h.activations[t].phase.k, h.activations[t].phase.provider);
    } else {
      StepKeeps(h, e, g);
      hide Step;
      StepOnward(h, e, g);
      OnwardLeaves(h, g);
    }
  }

  lemma {:induction false} HarmlessLeaves(hs: seq<Host>, es: seq<Event>, n: nat)
    requires Run(hs, es) && AllHarmless(hs, es) && n < |hs|
    ensures NobodyLeftBehind(hs[n])
  {
    hide NobodyLeftBehind, HarmlessJoin, Step, JoinIs, Books;
    if n == 0 {
      EmptyLeaves(hs[0]);
    } else {
      HarmlessLeaves(hs, es, n - 1);
      RunKeeps(hs, es, n - 1);
      assert Step(hs[n - 1], es[n - 1], hs[n - 1 + 1]);
      StepLeaves(hs[n - 1], es[n - 1], hs[n]);
    }
  }

  /** In any run nobody is ever left behind exactly when every join is harmless. */
  lemma NobodyLeftExactly(hs: seq<Host>, es: seq<Event>)
    requires Run(hs, es)
    ensures (forall n: nat :: n < |hs| ==> NobodyLeftBehind(hs[n])) <==> AllHarmless(hs, es)
  {
    hide NobodyLeftBehind, HarmlessJoin, Step, Books;
    if forall n: nat :: n < |hs| ==> NobodyLeftBehind(hs[n]) {
      forall n: nat, i: nat, k: nat, p: nat | n < |es| && JoinIs(hs[n], es[n], i, k, p)
        ensures HarmlessJoin(hs[n], es[n].t, k, p)
      {
        RunKeeps(hs, es, n);
        assert Step(hs[n], es[n], hs[n + 1]) && NobodyLeftBehind(hs[n + 1]);
        StepLeaves(hs[n], es[n], hs[n + 1]);
      }
    }
    if AllHarmless(hs, es) {
      forall n: nat | n < |hs|
        ensures NobodyLeftBehind(hs[n])
      {
        HarmlessLeaves(hs, es, n);
      }
    }
  }

  /** A safe join is harmless: in a run of safe joins so is every one. */
  lemma SafeIsHarmless(hs: seq<Host>, es: seq<Event>)
    requires Run(hs, es) && AllSafe(hs, es)
    ensures AllHarmless(hs, es)
  {
    hide NobodyLeftBehind, NobodyMissed, AllSafe, AllHarmless, Run, Books;
    NobodyMissedExactly(hs, es);
    forall n: nat | n < |hs|
      ensures NobodyLeftBehind(hs[n])
    {
      RunKeeps(hs, es, n);
      MissedOrLeft(hs[n]);
    }
    NobodyLeftExactly(hs, es);
  }

  // ------------------------------------------------------------ what safe joins give

  /** In a run of safe joins, once a disposal is finished so is that of every instance
      above it that was ever active. */
  lemma FinishedUpwards(hs: seq<Host>, es: seq<Event>, i: nat, x: nat, d: nat, n: nat)
    requires Run(hs, es) && AllSafe(hs, es) && i < |hs|
    requires Done(hs[i], d) && Reaches(hs[i], x, d, n) && x < |hs[i].instances| && EverActive(hs[i].instances[x])
    ensures Done(hs[i], x)
  {
    hide Run, AllSafe, NobodyMissed, Books, EverActive;
    NobodyMissedExactly(hs, es);
    RunKeeps(hs, es, i);
    Upwards(hs[i], map[], x, d, n);
  }

  /** In a run of safe joins an active instance's dependencies are active, or their
      disposal has yet to come to it. */
  lemma ActiveRestsOnActive(hs: seq<Host>, es: seq<Event>, i: nat, x: nat, d: nat)
    requires Run(hs, es) && AllSafe(hs, es) && i < |hs| && Active(hs[i], x) && DependsOn(hs[i], x, d)
    ensures d < |hs[i].instances|
    ensures Active(hs[i], d) || (hs[i].instances[d].stage.Sweeping? && hs[i].instances[d].stage.next <= x)
  {
    hide Run, AllSafe;
    NobodyMissedExactly(hs, es);
    RunKeeps(hs, es, i);
    ActiveNotBegun(hs[i], x);
    hide Path, EffectsOk, OwnOk;
    assert InstanceOk(hs[i].instances[d]);
  }
}
