/** A run in which a dependent is stranded: two activations of one plugin overlap, its own
    and one on behalf of a plugin that requires it, and they choose different providers. */
module Overlap {
  import opened Resolution
  import opened Lifecycles
  import opened Disposal
  import opened Dependents
  import opened Finishing

  ghost predicate Reachable(h: Host) {
    exists hs, es :: Run(hs, es) && hs[|es|] == h
  }

  lemma StartReachable()
    ensures Reachable(Host([], [], map[], [], []))
  {
    var hs: seq<Host> := [Host([], [], map[], [], [])];
    var es: seq<Event> := [];
    assert Run(hs, es);
  }

  lemma OneStepFurther(h: Host, e: Event, g: Host)
    requires Reachable(h) && Step(h, e, g)
    ensures Reachable(g)
  {
    hide Step;
    var hs, es :| Run(hs, es) && hs[|es|] == h;
    var more, done := hs + [g], es + [e];
    forall i | 0 <= i < |done|
      ensures Step(more[i], done[i], more[i + 1])
    {
      assert i < |es| ==> Step(hs[i], es[i], hs[i + 1]);
    }
    assert Run(more, done);
  }

  // -------------------------------------------------------------------- the cast

  const UP: seq<Lifecycle> := [DISCOVERED, VERIFIED, RESOLVED, ACTIVATING, ACTIVE]

  /** An instance on its way up: how far, and what it depends on. */
  function Rising(needs: nat, asked: bool, dependencies: set<nat>, n: nat): Instance
    requires 0 < n <= |UP|
  {
    Instance(UP[n - 1], UP[..n], needs, asked, dependencies, true, [], [], [], NotBegun, false)
  }

  /** The plugin that is activated twice, with two needs; the one that requires it; a
      provider at each stage. */
  function Twice(dependencies: set<nat>, n: nat): Instance
    requires 0 < n <= |UP|
  {
    Rising(2, true, dependencies, n)
  }

  const USER := Rising(1, true, {}, 2)
  const FRESH := Rising(0, false, {}, 2)
  const STARTING := Rising(0, false, {}, 4)
  const SERVING := Rising(0, false, {}, 5)

  function Going(stage: Stage): Instance {
    Instance(QUIESCING, UP + [QUIESCING], 0, false, {}, false, [], [], [], stage, true)
  }

  const GONE := Instance(DISPOSED, UP + [QUIESCING, DISPOSED], 0, false, {}, false, [], [], [], Finished, true)

  lemma Climbing(needs: nat, asked: bool, dependencies: set<nat>)
    ensures Discovered(needs) == Rising(needs, false, {}, 2)
    ensures To(To(Rising(needs, asked, dependencies, 2), RESOLVED), ACTIVATING) == Rising(needs, asked, dependencies, 4)
    ensures To(Rising(needs, asked, dependencies, 4), ACTIVE) == Rising(needs, asked, dependencies, 5)
    ensures EverActive(Rising(needs, asked, dependencies, 5))
  {
    assert UP[..2] + [RESOLVED] + [ACTIVATING] == UP[..4];
    assert UP[..4] + [ACTIVE] == UP[..5];
    assert UP[..5][4] == ACTIVE;
  }

  // -------------------------------------------------------------------- the moves

  /** g is h with another instance at i and another phase at t. */
  predicate Moved(h: Host, i: nat, x: Instance, t: nat, p: Phase, g: Host) {
    && i < |h.instances| && t < |h.activations| && h.activations[t].instance == i
    && g.instances == h.instances[i := x]
    && g.activations == h.activations[t := h.activations[t].(phase := p)]
    && g.registrations == h.registrations && g.calls == h.calls && g.grants == h.grants
  }

  lemma Enters(h: Host, t: nat, i: nat, needs: nat, asked: bool, ds: set<nat>, g: Host)
    requires Reachable(h) && Moved(h, i, Rising(needs, asked, ds, 4), t, Running, g)
    requires h.instances[i] == Rising(needs, asked, ds, 2) && h.activations[t].phase.Choosing? && h.activations[t].phase.k >= needs
    ensures Reachable(g)
  {
    hide Reachable;
    Climbing(needs, asked, ds);
    OneStepFurther(h, Event.Enters(t), g);
  }

  lemma Publishes(h: Host, t: nat, i: nat, needs: nat, asked: bool, ds: set<nat>, g: Host)
    requires Reachable(h) && Moved(h, i, Rising(needs, asked, ds, 5), t, Over, g) && h.registrations == []
    requires h.instances[i] == Rising(needs, asked, ds, 4) && h.activations[t].phase == Running
    requires forall d | d in ds :: d < |h.instances| && h.instances[d].state == ACTIVE
    ensures Reachable(g)
  {
    hide Reachable;
    Climbing(needs, asked, ds);
    OneStepFurther(h, Event.Publishes(t), g);
  }

  lemma Joins(h: Host, t: nat, i: nat, k: nat, p: nat, g: Host)
    requires Reachable(h) && i < |h.instances|
    requires Moved(h, i, h.instances[i].(dependencies := h.instances[i].dependencies + {p}), t, Choosing(k + 1), g)
    requires h.activations[t].phase == Awaiting(k, p) && p < |h.instances| && EverActive(h.instances[p])
    ensures Reachable(g)
  {
    hide Reachable, EverActive;
    OneStepFurther(h, Event.Joins(t), g);
  }

  /** A provider that is verified is activated by whoever needs it. */
  lemma Chooses(h: Host, t: nat, i: nat, k: nat, p: nat, g: Host)
    requires Reachable(h) && i < |h.instances| && p < |h.instances| && t < |h.activations| && h.activations[t].instance == i
    requires g == h.(activations := h.activations[t := h.activations[t].(phase := Awaiting(k, p))]
                                    + [Activation(p, h.activations[t].stack + {p}, Choosing(0))])
    requires h.activations[t].phase == Choosing(k) && k < h.instances[i].needs && p !in h.activations[t].stack
    requires h.instances[p].state == VERIFIED
    ensures Reachable(g)
  {
    hide Reachable;
    OneStepFurther(h, Event.Chooses(t, p), g);
  }

  lemma Begins(h: Host, i: nat, needs: nat, g: Host)
    requires Reachable(h) && i < |h.instances| && h.instances[i] == Rising(needs, false, {}, 2)
    requires g == Host(h.instances[i := Rising(needs, true, {}, 2)], h.registrations, h.calls, h.grants,
      h.activations + [Activation(i, {i}, Choosing(0))])
    ensures Reachable(g)
  {
    hide Reachable;
    assert {} + {i} == {i};
    OneStepFurther(h, Event.Begins(i), g);
  }

  lemma Discovers(h: Host, needs: nat, g: Host)
    requires Reachable(h) && g == h.(instances := h.instances + [Rising(needs, false, {}, 2)])
    ensures Reachable(g)
  {
    hide Reachable;
    Climbing(needs, false, {});
    OneStepFurther(h, Event.Discovers(needs), g);
  }

  /** Instance 0 is activated by itself and for instance 3, with 1 and 2 as providers of
      its first need; `last` is the activation of a provider of its second need. */
  function Scene(instances: seq<Instance>, own: Phase, first: Phase, user: Phase, again: Phase, second: Phase, last: seq<Activation>): Host {
    Host(instances, [], map[], [],
      [Activation(0, {0}, own), Activation(1, {0, 1}, first), Activation(3, {3}, user), Activation(0, {3, 0}, again),
       Activation(2, {3, 0, 2}, second)] + last)
  }

  const FORUSER := Awaiting(0, 0)
  const FORSECOND := Awaiting(0, 2)

  // --------------------------------------------------------------------- the run

  const FIRST := Awaiting(0, 1)

  lemma OwnActivation() returns (h: Host)
    ensures Reachable(h)
    ensures h == Host([Twice({}, 2), STARTING, FRESH, Rising(1, false, {}, 2)], [], map[], [],
      [Activation(0, {0}, FIRST), Activation(1, {0, 1}, Running)])
  {
    hide Reachable, Step, Rising;
    StartReachable();
    var a := Host([Rising(2, false, {}, 2)], [], map[], [], []);
    Discovers(Host([], [], map[], [], []), 2, a);
    var b := Host([Rising(2, false, {}, 2), FRESH], [], map[], [], []);
    Discovers(a, 0, b);
    var c := Host([Twice({}, 2), FRESH], [], map[], [], [Activation(0, {0}, Choosing(0))]);
    Begins(b, 0, 2, c);
    var d := c.(activations := [Activation(0, {0}, FIRST), Activation(1, {0, 1}, Choosing(0))]);
    assert {0} + {1} == {0, 1};
    Fresh(2, true);
    Fresh(0, false);
    Chooses(c, 0, 0, 0, 1, d);
    var e := Host([Twice({}, 2), STARTING], [], map[], [], [Activation(0, {0}, FIRST), Activation(1, {0, 1}, Running)]);
    Enters(d, 1, 1, 0, false, {}, e);
    var f := e.(instances := [Twice({}, 2), STARTING, FRESH]);
    Discovers(e, 0, f);
    h := e.(instances := [Twice({}, 2), STARTING, FRESH, Rising(1, false, {}, 2)]);
    Discovers(f, 1, h);
  }

  lemma Fresh(needs: nat, asked: bool)
    ensures Rising(needs, asked, {}, 2).state == VERIFIED && Rising(needs, asked, {}, 2).needs == needs
  {
  }

  lemma Up(needs: nat, asked: bool, ds: set<nat>)
    ensures Rising(needs, asked, ds, 5).state == ACTIVE && EverActive(Rising(needs, asked, ds, 5))
    ensures Rising(needs, asked, ds, 5).needs == needs
  {
    Climbing(needs, asked, ds);
  }

  lemma Needing(ds: set<nat>, d: nat, n: nat)
    requires 0 < n <= |UP|
    ensures Twice(ds, n).(dependencies := Twice(ds, n).dependencies + {d}) == Twice(ds + {d}, n)
  {
  }

  /** The user's activation needs instance 0, which is still verified, and so activates it
      again; a better provider of the first need has come by then. */
  lemma AgainForTheUser() returns (h: Host)
    ensures Reachable(h)
    ensures h == Scene([Twice({}, 2), STARTING, STARTING, USER], FIRST, Running, FORUSER, FORSECOND, Running, [])
  {
    hide Reachable, Step, Rising;
    var a := OwnActivation();
    var started := a.activations;
    var four := [Twice({}, 2), STARTING, FRESH, USER];
    var b := Host(four, [], map[], [], started + [Activation(3, {3}, Choosing(0))]);
    Begins(a, 3, 1, b);
    var c := Host(four, [], map[], [], started + [Activation(3, {3}, FORUSER), Activation(0, {3, 0}, Choosing(0))]);
    Fresh(2, true);
    Fresh(1, true);
    Fresh(0, false);
    assert {3} + {0} == {3, 0} && {3, 0} + {2} == {3, 0, 2};
    Chooses(b, 2, 3, 0, 0, c);
    var d := Scene(four, FIRST, Running, FORUSER, FORSECOND, Choosing(0), []);
    Chooses(c, 3, 0, 0, 2, d);
    h := Scene([Twice({}, 2), STARTING, STARTING, USER], FIRST, Running, FORUSER, FORSECOND, Running, []);
    Enters(d, 4, 2, 0, false, {}, h);
  }

  lemma FirstProviderUp() returns (h: Host)
    ensures Reachable(h)
    ensures h == Scene([Twice({1}, 2), SERVING, STARTING, USER], Choosing(1), Over, FORUSER, FORSECOND, Running, [])
  {
    hide Reachable, Step, Rising, EverActive;
    var a := AgainForTheUser();
    var b := Scene([Twice({}, 2), SERVING, STARTING, USER], FIRST, Over, FORUSER, FORSECOND, Running, []);
    Publishes(a, 1, 1, 0, false, {}, b);
    Up(0, false, {});
    Needing({}, 1, 2);
    assert {} + {1} == {1};
    h := Scene([Twice({1}, 2), SERVING, STARTING, USER], Choosing(1), Over, FORUSER, FORSECOND, Running, []);
    Joins(b, 0, 0, 0, 1, h);
  }

  /** The other need is met by the same provider, which is active already. */
  lemma FirstNeedsMet() returns (h: Host)
    ensures Reachable(h)
    ensures h == Scene([Twice({1}, 2), SERVING, STARTING, USER], Choosing(2), Over, FORUSER, FORSECOND, Running, [])
  {
    hide Reachable, Rising, EverActive;
    var a := FirstProviderUp();
    var b := Scene([Twice({1}, 2), SERVING, STARTING, USER], Awaiting(1, 1), Over, FORUSER, FORSECOND, Running, []);
    Up(0, false, {});
    assert Twice({1}, 2).needs == 2 by { Climbs({1}, 2); }
    assert Choose(a, 0, 1, 1).activations == b.activations;
    OneStepFurther(a, Event.Chooses(0, 1), b);
    hide Step;
    h := Scene([Twice({1}, 2), SERVING, STARTING, USER], Choosing(2), Over, FORUSER, FORSECOND, Running, []);
    Needing({1}, 1, 2);
    assert {1} + {1} == {1};
    Joins(b, 0, 0, 1, 1, h);
  }

  lemma Climbs(ds: set<nat>, n: nat)
    requires 0 < n <= |UP|
    ensures Twice(ds, n).needs == 2 && Twice(ds, n).dependencies == ds
  {
  }

  /** The first of the two gets through; the other still waits for its provider. */
  lemma OneGetsThrough() returns (h: Host)
    ensures Reachable(h)
    ensures h == Scene([Twice({1}, 5), SERVING, STARTING, USER], Over, Over, FORUSER, FORSECOND, Running, [])
  {
    hide Reachable, Step, Rising;
    var a := FirstNeedsMet();
    var b := Scene([Twice({1}, 4), SERVING, STARTING, USER], Running, Over, FORUSER, FORSECOND, Running, []);
    Enters(a, 0, 0, 2, true, {1}, b);
    h := Scene([Twice({1}, 5), SERVING, STARTING, USER], Over, Over, FORUSER, FORSECOND, Running, []);
    Up(0, false, {});
    Publishes(b, 0, 0, 2, true, {1}, h);
  }

  function Settled(third: Instance): Host {
    Scene([Twice({1}, 5), SERVING, third, USER, FRESH], Over, Over, FORUSER, FORSECOND, Over, [])
  }

  lemma SecondProviderUp() returns (h: Host)
    ensures Reachable(h) && h == Settled(SERVING)
  {
    hide Reachable, Step, Rising;
    var a := OneGetsThrough();
    var b := Scene([Twice({1}, 5), SERVING, STARTING, USER, FRESH], Over, Over, FORUSER, FORSECOND, Running, []);
    Discovers(a, 0, b);
    h := Settled(SERVING);
    Publishes(b, 4, 2, 0, false, {}, h);
  }

  lemma SweepsPast(n: nat)
    requires n <= 5 && Reachable(Settled(Going(Sweeping(n))))
    ensures Reachable(Settled(Going(if n < 5 then Sweeping(n + 1) else Cleaning(0))))
  {
    hide Reachable;
    var h := Settled(Going(Sweeping(n)));
    var y := Going(if n < 5 then Sweeping(n + 1) else Cleaning(0));
    assert Put(h, 2, y).instances == Settled(y).instances;
    OneStepFurther(h, SweepTurn(2), Settled(y));
  }

  lemma DisposalBegins(h: Host)
    requires Reachable(h) && h == Settled(SERVING)
    ensures Reachable(Settled(Going(Sweeping(0))))
  {
    hide Reachable;
    var g := Settled(Going(Sweeping(0)));
    assert UP[..5] == UP;
    assert Dispose(h, 2).calls == map[] && Dispose(h, 2).instances == g.instances;
    OneStepFurther(h, Disposes(2), g);
  }

  lemma DisposalEnds()
    requires Reachable(Settled(Going(Cleaning(0))))
    ensures Reachable(Settled(GONE))
  {
    hide Reachable;
    var h := Settled(Going(Cleaning(0)));
    assert Undoes(Going(Cleaning(0)), false, GONE);
    assert Settled(GONE) == Put(h, 2, GONE);
    OneStepFurther(h, UndoTurn(2, false), Settled(GONE));
  }

  /** The second provider becomes active and is disposed of before the activation that
      waited for it goes on. */
  lemma ProviderComesAndGoes() returns (h: Host)
    ensures Reachable(h) && h == Settled(GONE)
  {
    hide Reachable, Settled;
    var a := SecondProviderUp();
    DisposalBegins(a);
    SweepsPast(0);
    SweepsPast(1);
    SweepsPast(2);
    SweepsPast(3);
    SweepsPast(4);
    SweepsPast(5);
    DisposalEnds();
    h := Settled(GONE);
  }

  function Stranded(again: Phase, last: Phase, first: Instance, fifth: Instance): Host {
    Scene([first, SERVING, GONE, USER, fifth], Over, Over, FORUSER, again, Over, [Activation(4, {3, 0, 4}, last)])
  }

  const WAITING := Awaiting(1, 4)

  /** The noting of the dependency, and the rest of its stretch. */
  lemma StrandingRun() returns (h: Host)
    ensures Reachable(h) && h == Stranded(WAITING, Running, Twice({1, 2}, 5), STARTING)
  {
    hide Reachable, Step, Rising, EverActive;
    var a := ProviderComesAndGoes();
    var five := [Twice({1, 2}, 5), SERVING, GONE, USER, FRESH];
    var b := Scene(five, Over, Over, FORUSER, Choosing(1), Over, []);
    Needing({1}, 2, 5);
    Climbs({1, 2}, 5);
    Fresh(0, false);
    assert {1} + {2} == {1, 2} && {3, 0} + {4} == {3, 0, 4};
    assert EverActive(GONE) by { EverGone(); }
    Joins(a, 3, 0, 0, 2, b);
    var c := Stranded(WAITING, Choosing(0), Twice({1, 2}, 5), FRESH);
    Chooses(b, 3, 0, 1, 4, c);
    h := Stranded(WAITING, Running, Twice({1, 2}, 5), STARTING);
    Enters(c, 5, 4, 0, false, {}, h);
  }

  lemma EverGone()
    ensures EverActive(GONE)
  {
    assert GONE.history[4] == ACTIVE;
  }

  /** The law fails: an instance whose disposal has finished has an active dependent, at
      a moment when everyone is waiting. */
  lemma TwoActivationsStrandADependent() returns (h: Host)
    ensures Reachable(h) && !NoneActiveAbove(h)
    ensures Done(h, 2) && Active(h, 0) && DependsOn(h, 0, 2)
    ensures forall t :: 0 <= t < |h.activations| ==> var p := h.activations[t].phase; p == Over || p.Awaiting? || p == Running
  {
    hide Reachable;
    h := StrandingRun();
    assert DependsOn(h, 0, 2) && Reaches(h, 2, 2, 0);
    assert Reaches(h, 0, 2, 1);
  }

  /** The end of the surplus activation: its plugin is active, so it may not become
      resolved, and it is disposed of. */
  lemma SurplusDisposes() returns (h: Host)
    ensures Reachable(h)
    ensures |h.instances| == 5 && h.instances[0].state == QUIESCING && |h.activations| == 6 && h.activations[3].phase == Over
  {
    hide Reachable, Rising, EverActive;
    var a := StrandingRun();
    var b := Stranded(WAITING, Over, Twice({1, 2}, 5), SERVING);
    Publishes(a, 5, 4, 0, false, {}, b);
    Up(0, false, {});
    Up(2, true, {1, 2, 4});
    Needing({1, 2}, 4, 5);
    assert {1, 2} + {4} == {1, 2, 4};
    var c := Stranded(Choosing(2), Over, Twice({1, 2, 4}, 5), SERVING);
    Joins(b, 3, 0, 1, 4, c);
    ActiveThrows(c, 3);
    h := Throws(c, 3);
    OneStepFurther(c, Event.Enters(3), h);
  }

  /** Whoever has become active meanwhile cannot be resolved again. */
  lemma ActiveThrows(h: Host, t: nat)
    requires Reachable(h) && Busy(h, t) && Active(h, h.activations[t].instance)
    ensures
      var g, i := Throws(h, t), h.activations[t].instance;
      Enter(h, t) == g && |g.instances| == |h.instances| && g.instances[i].state == QUIESCING
      && |g.activations| == |h.activations| && g.activations[t].phase == Over
  {
    var hs, es :| Run(hs, es) && hs[|es|] == h;
    RunKeeps(hs, es, |es|);
    hide Path, EffectsOk, Run;
    assert InstanceOk(h.instances[h.activations[t].instance]);
  }

  // ---------------------------------------------------- an unsafe join that is harmless

  /** 0 depends on 1 and 1 on 2; the disposal of 2 has gone past 0 and comes to 1 next. */
  const ROUNDABOUT := Host([Rising(2, true, {1}, 5), Rising(1, true, {2}, 5), Going(Sweeping(1))], [], map[], [],
    [Activation(0, {3, 0}, Awaiting(1, 2))])

  lemma RoundaboutBooks()
    ensures Books(ROUNDABOUT) && EverActive(ROUNDABOUT.instances[2])
  {
    var h := ROUNDABOUT;
    Climbing(2, true, {1});
    Climbing(1, true, {2});
    assert h.instances[2].history[4] == ACTIVE;
    assert forall x: nat, d: nat :: DependsOn(h, x, d) ==> d < 3 && EverActive(h.instances[d]);
    assert OwnOk(h);
    hide EverActive;
    forall i | 0 <= i < |h.instances|
      ensures InstanceOk(h.instances[i])
    {
      RoundaboutOk(i);
    }
  }

  lemma RoundaboutOk(i: nat)
    requires i < 3
    ensures InstanceOk(ROUNDABOUT.instances[i])
  {
    var x := ROUNDABOUT.instances[i];
    assert UP[..5] == UP;
    assert EverActive(x) by { assert x.history[4] == ACTIVE; }
    hide EverActive;
  }

  /** The test is not always needed: here the join is unsafe and yet strands nobody,
      because the disposal still has to wait for an instance that waits for the consumer. */
  lemma SafeIsNotNeeded(g: Host)
    requires Leads(Join(ROUNDABOUT, 0, 1, 2), g) && Done(g, 2)
    ensures Books(ROUNDABOUT) && Active(ROUNDABOUT, 0) && !SafeJoin(ROUNDABOUT, 0, 2) && !Active(g, 0)
  {
    hide Books, Leads, EverActive;
    RoundaboutBooks();
    var h := Join(ROUNDABOUT, 0, 1, 2);
    JoinKeeps(ROUNDABOUT, 0, 1, 2);
    Up(2, true, {1});
    assert DependsOn(h, 1, 2) && DependsOn(h, 0, 1);
    forall rank | Schedule(h, rank) && 2 in rank
      ensures 0 in rank
    {
      assert !Passed(h.instances[2], 1);
      assert 1 in rank;
      assert !Passed(h.instances[1], 0);
    }
    StrandedExactly(h, 0, 2);
  }
}
