/** What holds of every instance in every run, however activations and disposals
    interleave. */
module Disposal {
  import opened Resolution
  import opened Lifecycles

  ghost predicate Run(hs: seq<Host>, es: seq<Event>) {
    && |hs| == |es| + 1 && hs[0] == Host([], [], map[], [], [])
    && forall i :: 0 <= i < |es| ==> Step(hs[i], es[i], hs[i + 1])
  }

  lemma {:induction false} RunKeeps(hs: seq<Host>, es: seq<Event>, i: nat)
    requires Run(hs, es) && i < |hs|
    ensures Books(hs[i])
  {
    hide Step;
    if i > 0 {
      RunKeeps(hs, es, i - 1);
      assert Step(hs[i - 1], es[i - 1], hs[i - 1 + 1]);
      StepKeeps(hs[i - 1], es[i - 1], hs[i]);
    } else {
      assert Books(hs[0]) by { NobodyHome(hs[0]); }
    }
  }

  lemma NobodyHome(h: Host)
    requires h == Host([], [], map[], [], [])
    ensures Books(h)
  {
  }

  /** The transitions there are. */
  const TABLE: set<(Lifecycle, Lifecycle)> := {
    (DISCOVERED, VERIFIED), (DISCOVERED, FAILED), (VERIFIED, RESOLVED), (VERIFIED, FAILED), (RESOLVED, ACTIVATING),
    (RESOLVED, FAILED), (ACTIVATING, ACTIVE), (ACTIVATING, FAILED), (ACTIVE, QUIESCING), (QUIESCING, DISPOSED), (QUIESCING, FAILED)}

  lemma AllowedIsTable(a: Lifecycle, b: Lifecycle)
    ensures Allowed(a, b) <==> (a, b) in TABLE
  {
  }

  /** Every instance's history is a path of the transition table that starts where
      discovery leaves it and ends where the instance is. */
  lemma HistoriesArePaths(hs: seq<Host>, es: seq<Event>, i: nat, x: nat)
    requires Run(hs, es) && i < |hs| && x < |hs[i].instances|
    ensures
      var p := hs[i].instances[x];
      && p.history != [] && p.history[0] == DISCOVERED && p.history[|p.history| - 1] == p.state
      && forall k :: 0 <= k < |p.history| - 1 ==> (p.history[k], p.history[k + 1]) in TABLE
  {
    hide Step, KnownOk, OwnOk, EffectsOk, Allowed, TABLE;
    RunKeeps(hs, es, i);
    assert InstanceOk(hs[i].instances[x]);
    var p := hs[i].instances[x];
    forall k | 0 <= k < |p.history| - 1
      ensures (p.history[k], p.history[k + 1]) in TABLE
    {
      AllowedIsTable(p.history[k], p.history[k + 1]);
    }
  }

  /** When `dispose` resolves: the instance has its last state; none of its registrations
      is live, no call involves it, it has no power left; each of its effects has been
      cleaned, each cleanup was started once, those the disposal started from the last
      to the first. */
  lemma DisposedIsDone(hs: seq<Host>, es: seq<Event>, n: nat, i: nat)
    requires Run(hs, es) && n < |hs| && i < |hs[n].instances| && hs[n].instances[i].stage == Finished
    ensures
      var x := hs[n].instances[i];
      && (x.state == DISPOSED || x.state == FAILED)
      && (forall e: nat :: e < |x.effects| ==> x.effects[e] == Cleaned && e in x.begun)
      && (forall e :: e in x.begun ==> e < |x.effects|)
      && (forall e: nat, f: nat :: e < f < |x.begun| ==> x.begun[e] != x.begun[f])
      && Backwards(x.undone, x.begun)
    ensures
      var h := hs[n];
      && (forall r :: 0 <= r < |h.registrations| && h.registrations[r].owner == i ==> !h.registrations[r].live)
      && (forall c :: c in h.calls ==> h.calls[c].caller != i && h.calls[c].provider != i)
      && (forall g :: 0 <= g < |h.grants| && h.grants[g].holder == i ==> h.grants[g].revoked)
  {
    hide Step, Path, KnownOk;
    RunKeeps(hs, es, n);
    assert InstanceOk(hs[n].instances[i]);
  }

  /** Dependencies are never forgotten and a finished disposal stays finished. */
  ghost predicate Later(h: Host, g: Host) {
    && |h.instances| <= |g.instances|
    && forall x: nat :: x < |h.instances| ==>
         && h.instances[x].dependencies <= g.instances[x].dependencies
         && (h.instances[x].stage == Finished ==> g.instances[x].stage == Finished)
         && (h.instances[x].asked ==> g.instances[x].asked)
         && h.instances[x].history <= g.instances[x].history
  }

  /** y may follow x. */
  ghost predicate Continues(x: Instance, y: Instance) {
    && x.dependencies <= y.dependencies && x.history <= y.history && (x.stage == Finished ==> y.stage == Finished)
    && (x.asked ==> y.asked)
  }

  lemma PutGoesOn(h: Host, i: nat, y: Instance)
    requires i < |h.instances| && Continues(h.instances[i], y)
    ensures Later(h, Put(h, i, y))
  {
  }

  lemma DisposeGoesOn(h: Host, i: nat)
    requires i < |h.instances|
    ensures Later(h, Dispose(h, i))
  {
  }

  lemma ThrowsGoesOn(h: Host, t: nat)
    requires Busy(h, t)
    ensures Later(h, Throws(h, t))
  {
    hide Dispose;
    DisposeGoesOn(Phased(h, t, Over), h.activations[t].instance);
  }

  lemma UndoGoesOn(x: Instance, failures: bool, y: Instance)
    requires Undoes(x, failures, y)
    ensures Continues(x, y)
  {
  }

  lemma ChooseGoesOn(h: Host, t: nat, k: nat, p: nat)
    requires Busy(h, t) && p < |h.instances|
    ensures Later(h, Choose(h, t, k, p))
  {
    hide Throws;
    ThrowsGoesOn(h, t);
  }

  lemma PublishGoesOn(h: Host, t: nat)
    requires Busy(h, t)
    ensures Later(h, Publish(h, t)) && Later(h, Enter(h, t))
  {
    hide Throws;
    ThrowsGoesOn(h, t);
  }

  lemma SweepGoesOn(h: Host, i: nat, g: Host)
    requires i < |h.instances| && Sweeps(h, i, g)
    ensures Later(h, g)
  {
    hide Dispose;
    var n := h.instances[i].stage.next;
    if n < |h.instances| { DisposeGoesOn(h, n); }
  }

  lemma StepGoesOn(h: Host, e: Event, g: Host)
    requires Step(h, e, g)
    ensures Later(h, g)
  {
    hide Dispose, Throws, Undoes, Choose, Publish, Enter, Sweeps, Put, EverActive, Later, Provide, Join, Begin, StartClean;
    match e
    case Chooses(t, p) => ChooseGoesOn(h, t, h.activations[t].phase.k, p);
    case Enters(t) => PublishGoesOn(h, t);
    case Publishes(t) => PublishGoesOn(h, t);
    case Fails(t) => ThrowsGoesOn(h, t);
    case Disposes(i) => DisposeGoesOn(h, i);
    case SweepTurn(i) => SweepGoesOn(h, i, g);
    case UndoTurn(i, failures) =>
      var y :| Undoes(h.instances[i], failures, y) && g == Put(h, i, y);
      UndoGoesOn(h.instances[i], failures, y);
      PutGoesOn(h, i, y);
    case _ => QuietStepGoesOn(h, e, g);
  }

  lemma QuietStepGoesOn(h: Host, e: Event, g: Host)
    requires Step(h, e, g)
    requires e.Discovers? || e.Begins? || e.Joins? || e.Provides? || e.Owns? || e.Removes? || e.Cleans? || e.Settles?
             || e.Invokes? || e.Returns? || e.Empowers?
    ensures Later(h, g)
  {
    hide Dispose, Throws, Undoes, Choose, Publish, Enter, Sweeps, EverActive;
  }

  lemma {:induction false} RunGoesOn(hs: seq<Host>, es: seq<Event>, i: nat, j: nat)
    requires Run(hs, es) && i <= j < |hs|
    ensures Later(hs[i], hs[j])
    decreases j
  {
    hide Step;
    if j > i {
      assert Step(hs[j - 1], es[j - 1], hs[j - 1 + 1]);
      StepGoesOn(hs[j - 1], es[j - 1], hs[j]);
      RunGoesOn(hs, es, i, j - 1);
    }
  }

  /** What an instance has done it has done for good: a finished disposal stays finished,
      in its last state. */
  lemma DisposedForGood(hs: seq<Host>, es: seq<Event>, n: nat, m: nat, i: nat)
    requires Run(hs, es) && n <= m < |hs| && i < |hs[n].instances| && hs[n].instances[i].stage == Finished
    ensures i < |hs[m].instances| && hs[m].instances[i].stage == Finished
    ensures hs[m].instances[i].state == DISPOSED || hs[m].instances[i].state == FAILED
  {
    hide Run;
    RunGoesOn(hs, es, n, m);
    DisposedIsDone(hs, es, m, i);
  }

  /** A plugin's own activation begins once: every later call of `activate` changes
      nothing. */
  lemma BeginsOnce(hs: seq<Host>, es: seq<Event>, n: nat, m: nat, i: nat)
    requires Run(hs, es) && n < m < |es| && es[n] == Begins(i) && es[m] == Begins(i)
    ensures hs[m + 1] == hs[m]
  {
    hide Step;
    assert Step(hs[n], es[n], hs[n + 1]) && Step(hs[m], es[m], hs[m + 1]);
    BeginAsks(hs[n], i, hs[n + 1]);
    RunGoesOn(hs, es, n + 1, m);
    BeginAgain(hs[m], i, hs[m + 1]);
  }

  lemma BeginAsks(h: Host, i: nat, g: Host)
    requires Step(h, Begins(i), g)
    ensures i < |h.instances| == |g.instances| && g.instances[i].asked
  {
  }

  lemma BeginAgain(h: Host, i: nat, g: Host)
    requires Step(h, Begins(i), g) && h.instances[i].asked
    ensures g == h
  {
  }

  // ------------------------------------------------------------ cleanups are waited for

  /** Effect n of instance i has been cleaned. */
  predicate CleanedAt(h: Host, i: nat, n: nat) {
    i < |h.instances| && n < |h.instances[i].effects| && h.instances[i].effects[n] == Cleaned
  }

  /** Nothing but the end of its cleanup makes an effect clean. */
  lemma OnlySettlingCleans(h: Host, e: Event, g: Host, i: nat, n: nat)
    requires Step(h, e, g) && CleanedAt(g, i, n) && !CleanedAt(h, i, n)
    ensures e == Settles(i, n)
  {
    hide Dispose, Throws, Undoes, Choose, Publish, Enter, Sweeps, EverActive, StartClean;
    match e
    case Chooses(t, p) => ThrowsCleans(h, t, i, n); ChooseIs(h);
    case Enters(t) => ThrowsCleans(h, t, i, n); EnterCleans(h, t, i, n);
    case Publishes(t) => ThrowsCleans(h, t, i, n); PublishCleans(h, t, i, n);
    case Fails(t) => ThrowsCleans(h, t, i, n);
    case Disposes(j) => DisposeCleans(h, j, i, n);
    case SweepTurn(j) => SweepCleans(h, j, g, i, n);
    case UndoTurn(j, failures) =>
      var y :| Undoes(h.instances[j], failures, y) && g == Put(h, j, y);
      UndoCleans(h.instances[j], failures, y);
    case Cleans(j, k) => CleanStarts(h.instances[j], k);
    case _ =>
  }

  lemma ChooseIs(h: Host)
    ensures forall t: nat, k: nat, p: nat :: t < |h.activations| && p < |h.instances| ==>
      Choose(h, t, k, p).instances == h.instances || Choose(h, t, k, p) == Throws(h, t)
  {
    hide Throws;
  }

  lemma DisposeCleans(h: Host, j: nat, i: nat, n: nat)
    requires j < |h.instances|
    ensures CleanedAt(Dispose(h, j), i, n) == CleanedAt(h, i, n)
  {
  }

  lemma ThrowsCleans(h: Host, t: nat, i: nat, n: nat)
    requires t < |h.activations|
    ensures CleanedAt(Throws(h, t), i, n) == CleanedAt(h, i, n)
  {
    hide Dispose;
    if h.activations[t].instance < |h.instances| {
      DisposeCleans(Phased(h, t, Over), h.activations[t].instance, i, n);
    }
  }

  lemma EnterCleans(h: Host, t: nat, i: nat, n: nat)
    requires Busy(h, t)
    ensures CleanedAt(Enter(h, t), i, n) == CleanedAt(h, i, n)
  {
    hide Throws;
    ThrowsCleans(h, t, i, n);
  }

  lemma PublishCleans(h: Host, t: nat, i: nat, n: nat)
    requires Busy(h, t)
    ensures CleanedAt(Publish(h, t), i, n) == CleanedAt(h, i, n)
  {
    hide Throws;
    ThrowsCleans(h, t, i, n);
  }

  lemma SweepCleans(h: Host, j: nat, g: Host, i: nat, n: nat)
    requires j < |h.instances| && Sweeps(h, j, g)
    ensures CleanedAt(g, i, n) == CleanedAt(h, i, n)
  {
    hide Dispose;
    var k := h.instances[j].stage.next;
    if k < |h.instances| {
      DisposeCleans(h, k, i, n);
    }
  }

  lemma CleanStarts(x: Instance, k: nat)
    requires k < |x.effects|
    ensures |StartClean(x, k).effects| == |x.effects|
    ensures forall n: nat :: n < |x.effects| && StartClean(x, k).effects[n] == Cleaned ==> x.effects[n] == Cleaned
  {
  }

  lemma UndoCleans(x: Instance, failures: bool, y: Instance)
    requires Undoes(x, failures, y)
    ensures |y.effects| == |x.effects|
    ensures forall n: nat :: n < |x.effects| && y.effects[n] == Cleaned ==> x.effects[n] == Cleaned
  {
  }

  /** A disposal that is done has waited for every cleanup: each of its instance's effects
      was settled at some step before. */
  lemma {:induction false} CleanedWasSettled(hs: seq<Host>, es: seq<Event>, m: nat, i: nat, n: nat) returns (l: nat)
    requires Run(hs, es) && m < |hs| && CleanedAt(hs[m], i, n)
    ensures l < m && es[l] == Settles(i, n)
  {
    hide Step, CleanedAt;
    assert m > 0 by { NothingCleaned(hs[0], i, n); }
    assert Step(hs[m - 1], es[m - 1], hs[m - 1 + 1]);
    if CleanedAt(hs[m - 1], i, n) {
      l := CleanedWasSettled(hs, es, m - 1, i, n);
    } else {
      OnlySettlingCleans(hs[m - 1], es[m - 1], hs[m], i, n);
      l := m - 1;
    }
  }

  lemma NothingCleaned(h: Host, i: nat, n: nat)
    requires h.instances == []
    ensures !CleanedAt(h, i, n)
  {
  }
}
