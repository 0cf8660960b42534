/** From a state in which somebody can be left behind to one in which somebody has been:
    disposals that wait for each other in no circle can be brought to an end. */
module Finishing {
  import opened Resolution
  import opened Lifecycles
  import opened Disposal
  import opened Dependents

  /** g comes out of h without another dependency being noted. */
  ghost predicate Through(hs: seq<Host>, es: seq<Event>, h: Host, g: Host) {
    && |hs| == |es| + 1 && hs[0] == h && hs[|es|] == g
    && forall i :: 0 <= i < |es| ==> Step(hs[i], es[i], hs[i + 1]) && !es[i].Joins?
  }

  ghost predicate Leads(h: Host, g: Host) {
    exists hs, es :: Through(hs, es, h, g)
  }

  lemma LeadsNowhere(h: Host)
    ensures Leads(h, h)
  {
    var hs: seq<Host>, es: seq<Event> := [h], [];
    assert Through(hs, es, h, h);
  }

  lemma LeadsOn(h: Host, g: Host, e: Event, k: Host)
    requires Leads(h, g) && Step(g, e, k) && !e.Joins?
    ensures Leads(h, k)
  {
    hide Step;
    var hs, es :| Through(hs, es, h, g);
    var more, done := hs + [k], es + [e];
    forall i | 0 <= i < |done|
      ensures Step(more[i], done[i], more[i + 1]) && !done[i].Joins?
    {
      assert i < |es| ==> Step(hs[i], es[i], hs[i + 1]);
    }
    assert Through(more, done, h, k);
  }

  lemma {:induction false} LeadsThrough(h: Host, g: Host, hs: seq<Host>, es: seq<Event>, n: nat)
    requires Leads(h, g) && |hs| == |es| + 1 && hs[0] == g && n < |hs|
    requires forall i :: 0 <= i < |es| ==> Step(hs[i], es[i], hs[i + 1]) && !es[i].Joins?
    ensures Leads(h, hs[n])
  {
    hide Step, Leads;
    if n > 0 {
      LeadsThrough(h, g, hs, es, n - 1);
      assert Step(hs[n - 1], es[n - 1], hs[n - 1 + 1]);
      LeadsOn(h, hs[n - 1], es[n - 1], hs[n]);
    }
  }

  lemma LeadsTrans(h: Host, g: Host, k: Host)
    requires Leads(h, g) && Leads(g, k)
    ensures Leads(h, k)
  {
    hide Step;
    var hs, es :| Through(hs, es, g, k);
    LeadsThrough(h, g, hs, es, |es|);
  }

  lemma LeadsStep(h: Host, e: Event, g: Host)
    requires Step(h, e, g) && !e.Joins?
    ensures Leads(h, g)
  {
    hide Step, Leads;
    LeadsNowhere(h);
    LeadsOn(h, h, e, g);
  }

  // -------------------------------------------------------------- one disposal

  /** Only m has changed, and it depends on what it depended on. */
  ghost predicate Only(h: Host, g: Host, m: nat) {
    && |g.instances| == |h.instances|
    && (forall x: nat :: x < |h.instances| && x != m ==> g.instances[x] == h.instances[x])
    && (m < |h.instances| ==> g.instances[m].dependencies == h.instances[m].dependencies)
  }

  /** Nobody the loop has still to come to depends on m, except those that are done. */
  ghost predicate Clear(h: Host, m: nat, next: nat) {
    forall n: nat :: n >= next && DependsOn(h, n, m) ==> Done(h, n)
  }

  lemma {:induction false} SweepAll(h: Host, m: nat) returns (g: Host)
    requires Books(h) && m < |h.instances| && h.instances[m].stage.Sweeping? && Clear(h, m, h.instances[m].stage.next)
    ensures Leads(h, g) && Books(g) && Only(h, g, m) && g.instances[m].stage.Cleaning?
    decreases |h.instances| - h.instances[m].stage.next
  {
    hide Leads, Books;
    var x := h.instances[m];
    var n := x.stage.next;
    if n >= |h.instances| {
      g := Put(h, m, x.(stage := Cleaning(|x.effects|)));
      LeadsStep(h, SweepTurn(m), g);
      StepKeeps(h, SweepTurn(m), g);
    } else {
      var k := Put(h, m, x.(stage := Sweeping(n + 1)));
      assert m in h.instances[n].dependencies ==> DependsOn(h, n, m);
      LeadsStep(h, SweepTurn(m), k);
      StepKeeps(h, SweepTurn(m), k);
      forall y: nat | y >= n + 1 && DependsOn(k, y, m)
        ensures Done(k, y)
      {
        assert DependsOn(h, y, m);
      }
      g := SweepAll(k, m);
      LeadsTrans(h, k, g);
    }
  }

  /** How much is left to do for the effect in front. */
  function Work(c: Clean): nat {
    match c
    case Untouched => 2
    case Started => 1
    case Cleaned => 0
  }

  lemma {:induction false} CleanAll(h: Host, m: nat) returns (g: Host)
    requires Books(h) && m < |h.instances| && h.instances[m].stage.Cleaning?
    ensures Leads(h, g) && Books(g) && Only(h, g, m) && Done(g, m)
    decreases
      var x := h.instances[m];
      x.stage.left,
      if 0 < h.instances[m].stage.left <= |h.instances[m].effects| then Work(h.instances[m].effects[h.instances[m].stage.left - 1]) else 0
  {
    hide Leads, Books;
    var x := h.instances[m];
    var n := x.stage.left;
    if n == 0 || n > |x.effects| {
      var y := (if x.wasActive then To(x, DISPOSED) else x).(stage := Finished);
      assert Undoes(x, false, y);
      g := Put(h, m, y);
      LeadsStep(h, UndoTurn(m, false), g);
      StepKeeps(h, UndoTurn(m, false), g);
    } else {
      var y := CleanTurn(x);
      var e := if x.effects[n - 1] == Started then Settles(m, n - 1) else UndoTurn(m, false);
      var k := Put(h, m, y);
      LeadsStep(h, e, k);
      StepKeeps(h, e, k);
      g := CleanAll(k, m);
      LeadsTrans(h, k, g);
    }
  }

  lemma CleanTurn(x: Instance) returns (y: Instance)
    requires x.stage.Cleaning? && 0 < x.stage.left <= |x.effects|
    ensures
      var n := x.stage.left;
      match x.effects[n - 1]
      case Started => y == x.(effects := x.effects[n - 1 := Cleaned])
      case _ => Undoes(x, false, y)
    ensures y.dependencies == x.dependencies && y.stage.Cleaning? && |y.effects| == |x.effects|
    ensures y.stage.left < x.stage.left
      || (y.stage.left == x.stage.left && Work(y.effects[x.stage.left - 1]) < Work(x.effects[x.stage.left - 1]))
  {
    var n := x.stage.left;
    y := match x.effects[n - 1]
      case Started => x.(effects := x.effects[n - 1 := Cleaned])
      case Cleaned => x.(stage := Cleaning(n - 1))
      case Untouched => StartClean(x, n - 1).(undone := x.undone + [n - 1]);
  }

  /** A disposal that waits for nobody is brought to its end. */
  lemma FinishOne(h: Host, m: nat) returns (g: Host)
    requires Books(h) && m < |h.instances|
    requires forall n: nat :: DependsOn(h, n, m) && !Passed(h.instances[m], n) ==> Done(h, n)
    ensures Leads(h, g) && Books(g) && Only(h, g, m) && Done(g, m)
  {
    hide Leads, Books;
    if Done(h, m) {
      g := h;
      LeadsNowhere(h);
    } else {
      var a := h;
      LeadsNowhere(h);
      if h.instances[m].stage == NotBegun {
        a := Dispose(h, m);
        NotEnded(h, m);
        LeadsStep(h, Disposes(m), a);
        StepKeeps(h, Disposes(m), a);
        forall n: nat | DependsOn(a, n, m)
          ensures Done(a, n)
        {
          assert DependsOn(h, n, m);
        }
      }
      var b := a;
      if a.instances[m].stage.Sweeping? {
        b := SweepAll(a, m);
        LeadsTrans(h, a, b);
      }
      g := CleanAll(b, m);
      LeadsTrans(h, b, g);
    }
  }

  lemma NotEnded(h: Host, m: nat)
    requires Books(h) && m < |h.instances| && h.instances[m].stage == NotBegun
    ensures !Ended(h.instances[m])
  {
    hide Path, EffectsOk;
    assert InstanceOk(h.instances[m]);
  }

  // ---------------------------------------------------------------- a schedule

  ghost function Undone(h: Host, rank: map<nat, nat>): set<nat> {
    set m | m in rank && !Done(h, m)
  }

  lemma {:induction false} Earliest(s: set<nat>, rank: map<nat, nat>) returns (m: nat)
    requires s != {} && s <= rank.Keys
    ensures m in s && forall k :: k in s ==> rank[m] <= rank[k]
    decreases |s|
  {
    m :| m in s;
    if s != {m} {
      var k := Earliest(s - {m}, rank);
      m := if rank[k] < rank[m] then k else m;
    }
  }

  /** The rest of the world: who is not on the schedule is as before, and everybody
      depends on what it depended on. */
  ghost predicate Beside(h: Host, g: Host, rank: map<nat, nat>) {
    && |g.instances| == |h.instances|
    && (forall x: nat :: x < |h.instances| ==> g.instances[x].dependencies == h.instances[x].dependencies)
    && (forall x: nat :: x < |h.instances| && x !in rank ==> g.instances[x] == h.instances[x])
  }

  lemma OnlyBeside(h: Host, k: Host, g: Host, m: nat, rank: map<nat, nat>)
    requires Only(h, k, m) && m in rank && Beside(k, g, rank)
    ensures Beside(h, g, rank)
  {
  }

  /** After the earliest has finished the schedule still stands, with one less to do. */
  lemma StillScheduled(h: Host, k: Host, m: nat, rank: map<nat, nat>)
    requires Schedule(h, rank) && Only(h, k, m) && m in rank && !Done(h, m) && Done(k, m)
    ensures Schedule(k, rank) && |Undone(k, rank)| < |Undone(h, rank)|
  {
    DonePassed(k, m);
    hide Passed;
    forall a: nat, n: nat | a in rank && DependsOn(k, n, a) && !Passed(k.instances[a], n)
      ensures n in rank && rank[n] < rank[a]
    {
      assert DependsOn(h, n, a);
    }
    assert Undone(h, rank) == Undone(k, rank) + {m};
  }

  /** Whoever stands on a schedule can be brought to the end of its disposal without
      anybody else being touched. */
  lemma {:induction false} FinishScheduled(h: Host, rank: map<nat, nat>, d: nat) returns (g: Host)
    requires Books(h) && Schedule(h, rank) && d in rank
    ensures Leads(h, g) && Books(g) && Beside(h, g, rank) && Done(g, d)
    decreases |Undone(h, rank)|
  {
    hide Leads, Books, Passed;
    if Done(h, d) {
      g := h;
      LeadsNowhere(h);
    } else {
      assert d in Undone(h, rank);
      var m := Earliest(Undone(h, rank), rank);
      forall n: nat | DependsOn(h, n, m) && !Passed(h.instances[m], n)
        ensures Done(h, n)
      {
        assert n in rank && rank[n] < rank[m];
        assert n !in Undone(h, rank);
      }
      var k := FinishOne(h, m);
      StillScheduled(h, k, m, rank);
      g := FinishScheduled(k, rank, d);
      LeadsTrans(h, k, g);
      OnlyBeside(h, k, g, m, rank);
    }
  }

  // ------------------------------------------------------------------ the law

  lemma {:induction false} LeadsLeaves(h: Host, hs: seq<Host>, es: seq<Event>, g: Host, n: nat)
    requires Books(h) && NobodyLeftBehind(h) && Through(hs, es, h, g) && n < |hs|
    ensures Books(hs[n]) && NobodyLeftBehind(hs[n])
  {
    hide Books, NobodyLeftBehind, Step, Onward;
    if n > 0 {
      LeadsLeaves(h, hs, es, g, n - 1);
      assert Step(hs[n - 1], es[n - 1], hs[n - 1 + 1]) && !es[n - 1].Joins?;
      StepKeeps(hs[n - 1], es[n - 1], hs[n]);
      StepOnward(hs[n - 1], es[n - 1], hs[n]);
      OnwardLeaves(hs[n - 1], hs[n]);
    }
  }

  /** From h the law can be broken without a further join exactly when somebody can be
      left behind in h. */
  lemma BreakableExactly(h: Host)
    requires Books(h)
    ensures (exists g :: Leads(h, g) && !NoneActiveAbove(g)) <==> !NobodyLeftBehind(h)
  {
    hide Books, Reaches, Schedule, Step;
    if NobodyLeftBehind(h) {
      forall g | Leads(h, g)
        ensures NoneActiveAbove(g)
      {
        var hs, es :| Through(hs, es, h, g);
        LeadsLeaves(h, hs, es, g, |es|);
        NobodyIsAbove(g);
      }
    } else {
      var rank: map<nat, nat>, x: nat, d: nat, n: nat :|
        Schedule(h, rank) && d in rank && Active(h, x) && Reaches(h, x, d, n) && x !in rank;
      var g := FinishScheduled(h, rank, d);
      ReachesSame(g, h, x, d, n);
    }
  }

  /** The law over runs. In no state of the run, and in none that comes of one without a
      further join, is a dependent of a finished instance active: this is so exactly when
      every join of the run is harmless. */
  lemma LawHoldsExactlyWhen(hs: seq<Host>, es: seq<Event>)
    requires Run(hs, es)
    ensures (forall n: nat, g :: n < |hs| && Leads(hs[n], g) ==> NoneActiveAbove(g)) <==> AllHarmless(hs, es)
  {
    hide Run, AllHarmless, Leads, NoneActiveAbove, NobodyLeftBehind, Books;
    NobodyLeftExactly(hs, es);
    forall n: nat | n < |hs|
      ensures (forall g :: Leads(hs[n], g) ==> NoneActiveAbove(g)) <==> NobodyLeftBehind(hs[n])
    {
      RunKeeps(hs, es, n);
      BreakableExactly(hs[n]);
    }
  }

  /** In a run of harmless joins whatever depends on a finished instance is not active,
      and never will be. */
  lemma DependentsNeverReturn(hs: seq<Host>, es: seq<Event>, i: nat, j: nat, x: nat, d: nat, n: nat)
    requires Run(hs, es) && AllHarmless(hs, es) && i <= j < |hs|
    requires Done(hs[i], d) && Reaches(hs[i], x, d, n)
    ensures !Active(hs[j], x)
  {
    hide Run, AllHarmless, Books, NobodyLeftBehind;
    HarmlessLeaves(hs, es, j);
    RunKeeps(hs, es, j);
    NobodyIsAbove(hs[j]);
    RunGoesOn(hs, es, i, j);
    ReachesLater(hs[i], hs[j], x, d, n);
  }

  lemma {:induction false} ReachesLater(h: Host, g: Host, x: nat, d: nat, n: nat)
    requires Later(h, g) && Reaches(h, x, d, n)
    ensures Reaches(g, x, d, n)
    decreases n
  {
    if n > 0 {
      var y: nat :| DependsOn(h, x, y) && Reaches(h, y, d, n - 1);
      ReachesLater(h, g, y, d, n - 1);
      assert DependsOn(g, x, y);
    }
  }

  // -------------------------------------------------------------- one unsafe join

  lemma {:induction false} ScheduledBefore(hs: seq<Host>, es: seq<Event>, h: Host, g: Host, rank: map<nat, nat>, n: nat) returns (before: map<nat, nat>)
    requires Books(h) && Through(hs, es, h, g) && n <= |es| && Schedule(hs[n], rank)
    ensures Schedule(h, before)
    ensures forall m: nat :: m in rank && m < |h.instances| ==> m in before
    ensures forall m :: m in before ==> m in rank || Done(hs[n], m)
    decreases n
  {
    hide Step, Schedule, Books;
    if n == 0 {
      before := rank;
    } else {
      var k := hs[n - 1];
      assert Step(k, es[n - 1], hs[n - 1 + 1]) && !es[n - 1].Joins?;
      StepOnward(k, es[n - 1], hs[n]);
      ScheduleBack(k, hs[n], rank);
      GrowsThrough(hs, es, h, g, n - 1);
      before := ScheduledBefore(hs, es, h, g, Earlier(k, rank), n - 1);
    }
  }

  lemma {:induction false} GrowsThrough(hs: seq<Host>, es: seq<Event>, h: Host, g: Host, n: nat)
    requires Through(hs, es, h, g) && n < |hs|
    ensures |h.instances| <= |hs[n].instances|
  {
    hide Step;
    if n > 0 {
      GrowsThrough(hs, es, h, g, n - 1);
      assert Step(hs[n - 1], es[n - 1], hs[n - 1 + 1]) && !es[n - 1].Joins?;
      StepOnward(hs[n - 1], es[n - 1], hs[n]);
    }
  }

  lemma {:induction false} BooksThrough(hs: seq<Host>, es: seq<Event>, h: Host, g: Host, n: nat)
    requires Books(h) && Through(hs, es, h, g) && n < |hs|
    ensures Books(hs[n])
  {
    hide Step, Books;
    if n > 0 {
      BooksThrough(hs, es, h, g, n - 1);
      assert Step(hs[n - 1], es[n - 1], hs[n - 1 + 1]);
      StepKeeps(hs[n - 1], es[n - 1], hs[n]);
    }
  }

  /** An active instance is left active on a finished one, without a further join,
      exactly when the disposal can finish without it. */
  lemma StrandedExactly(h: Host, i: nat, p: nat)
    requires Books(h) && Active(h, i) && p < |h.instances|
    ensures (exists g :: Leads(h, g) && Done(g, p) && Active(g, i))
      <==> exists rank :: Schedule(h, rank) && p in rank && i !in rank
  {
    hide Step, Books, Schedule;
    if g :| Leads(h, g) && Done(g, p) && Active(g, i) {
      var hs, es :| Through(hs, es, h, g);
      BooksThrough(hs, es, h, g, |es|);
      ActiveNotBegun(g, i);
      OneDone(g, p);
      var rank := ScheduledBefore(hs, es, h, g, map[p := 0], |es|);
      assert i !in rank;
    }
    if rank :| Schedule(h, rank) && p in rank && i !in rank {
      var g := FinishScheduled(h, rank, p);
    }
  }

  lemma OneDone(g: Host, p: nat)
    requires Done(g, p)
    ensures Schedule(g, map[p := 0])
  {
    DonePassed(g, p);
  }

  /** An unsafe join by an active consumer strands it as soon as nobody else is waited
      for: there is a continuation with the provider finished and the consumer active. */
  lemma UnsafeJoinStrands(h: Host, t: nat, k: nat, p: nat) returns (g: Host)
    requires Books(h) && Busy(h, t) && p < |h.instances| && EverActive(h.instances[p])
    requires Active(h, h.activations[t].instance) && !SafeJoin(h, h.activations[t].instance, p)
    requires forall n: nat :: DependsOn(h, n, p) ==> Passed(h.instances[p], n) || Done(h, n)
    ensures
      var i := h.activations[t].instance;
      Leads(Join(h, t, k, p), g) && Done(g, p) && Active(g, i) && DependsOn(g, i, p)
  {
    hide Books, Leads, Passed, EverActive;
    var i := h.activations[t].instance;
    JoinKeeps(h, t, k, p);
    JoinGraph(h, t, k, p);
    hide Join;
    var a := Join(h, t, k, p);
    forall x: nat | x < |h.instances|
      ensures forall n: nat :: Passed(a.instances[x], n) == Passed(h.instances[x], n)
    {
      SameStages(h.instances[x], a.instances[x]);
    }
    ActiveNotBegun(h, i);
    var rank := map m: nat | m < |a.instances| && (m == p || Done(a, m)) :: if Done(a, m) then 0 else 1;
    forall m: nat, n: nat | m in rank && DependsOn(a, n, m) && !Passed(a.instances[m], n)
      ensures n in rank && rank[n] < rank[m]
    {
      if Done(a, m) { DonePassed(a, m); }
    }
    assert i !in rank;
    g := FinishScheduled(a, rank, p);
  }
}
