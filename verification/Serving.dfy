/** When a registration can be used, and whom an activation may wait for, in every run. */
module Serving {
  import opened Resolution
  import opened Lifecycles
  import opened Disposal

  /** A live registration's owner is active. */
  ghost predicate ServedOk(h: Host) {
    forall r :: 0 <= r < |h.registrations| && h.registrations[r].live ==>
      h.registrations[r].owner < |h.instances| && h.instances[h.registrations[r].owner].state == ACTIVE
  }

  /** An activation runs on behalf of its own instance, and never waits for one that it
      runs on behalf of; so no instance depends on itself. */
  ghost predicate WaitsOk(h: Host) {
    && (forall t :: 0 <= t < |h.activations| ==> h.activations[t].instance in h.activations[t].stack)
    && (forall t :: 0 <= t < |h.activations| && h.activations[t].phase.Awaiting? ==>
          h.activations[t].phase.provider !in h.activations[t].stack)
    && (forall x: nat :: x < |h.instances| ==> x !in h.instances[x].dependencies)
  }

  /** Whoever is active stays so; registrations are as they were; nobody waits anew. */
  ghost predicate Calm(h: Host, g: Host) {
    && |h.instances| <= |g.instances| && g.registrations == h.registrations
    && (forall x: nat :: x < |h.instances| && h.instances[x].state == ACTIVE ==> g.instances[x].state == ACTIVE)
    && Waits(h, g)
  }

  ghost predicate Waits(h: Host, g: Host) {
    && |g.activations| == |h.activations|
    && (forall t :: 0 <= t < |h.activations| ==>
          g.activations[t] == h.activations[t].(phase := g.activations[t].phase)
          && (g.activations[t].phase.Awaiting? ==> g.activations[t].phase == h.activations[t].phase))
    && (forall x: nat :: x < |g.instances| ==>
          g.instances[x].dependencies == if x < |h.instances| then h.instances[x].dependencies else {})
  }

  lemma CalmKeeps(h: Host, g: Host)
    requires ServedOk(h) && WaitsOk(h) && Calm(h, g)
    ensures ServedOk(g) && WaitsOk(g)
  {
  }

  lemma WaitsKeeps(h: Host, g: Host)
    requires WaitsOk(h) && Waits(h, g)
    ensures WaitsOk(g)
  {
  }

  lemma DisposeServes(h: Host, i: nat)
    requires ServedOk(h) && WaitsOk(h) && i < |h.instances|
    ensures ServedOk(Dispose(h, i)) && WaitsOk(Dispose(h, i))
  {
    var g := Dispose(h, i);
    assert forall x: nat :: x < |h.instances| && x != i ==> g.instances[x] == h.instances[x];
    WaitsKeeps(h, g);
  }

  lemma ThrowsServes(h: Host, t: nat)
    requires ServedOk(h) && WaitsOk(h) && Busy(h, t)
    ensures ServedOk(Throws(h, t)) && WaitsOk(Throws(h, t))
  {
    hide Dispose, ServedOk, WaitsOk;
    CalmKeeps(h, Phased(h, t, Over));
    DisposeServes(Phased(h, t, Over), h.activations[t].instance);
  }

  /** A new activation runs on behalf of all that its maker does. */
  lemma StartServes(h: Host, p: nat, stack: set<nat>)
    requires ServedOk(h) && WaitsOk(h)
    ensures ServedOk(Start(h, p, stack)) && WaitsOk(Start(h, p, stack))
  {
  }

  lemma BeginServes(h: Host, i: nat)
    requires ServedOk(h) && WaitsOk(h) && i < |h.instances|
    ensures ServedOk(Begin(h, i)) && WaitsOk(Begin(h, i))
  {
    hide ServedOk, WaitsOk;
    var g := Put(h, i, h.instances[i].(asked := true));
    CalmKeeps(h, g);
    StartServes(g, i, {});
  }

  lemma ChooseServes(h: Host, t: nat, k: nat, p: nat)
    requires ServedOk(h) && WaitsOk(h) && Busy(h, t) && p < |h.instances|
    ensures ServedOk(Choose(h, t, k, p)) && WaitsOk(Choose(h, t, k, p))
  {
    hide Throws;
    ThrowsServes(h, t);
    if p !in h.activations[t].stack {
      var g := Phased(h, t, Awaiting(k, p));
      assert ServedOk(g) && WaitsOk(g);
      hide ServedOk, WaitsOk;
      StartServes(g, p, h.activations[t].stack);
    }
  }

  lemma JoinServes(h: Host, t: nat, k: nat, p: nat)
    requires ServedOk(h) && WaitsOk(h) && Busy(h, t) && h.activations[t].phase == Awaiting(k, p)
    ensures ServedOk(Join(h, t, k, p)) && WaitsOk(Join(h, t, k, p))
  {
    var g, i := Join(h, t, k, p), h.activations[t].instance;
    assert p != i;
    assert forall x: nat :: x < |h.instances| ==> g.instances[x].state == h.instances[x].state;
  }

  lemma EnterServes(h: Host, t: nat)
    requires ServedOk(h) && WaitsOk(h) && Busy(h, t)
    ensures ServedOk(Enter(h, t)) && WaitsOk(Enter(h, t))
  {
    hide Throws, ServedOk, WaitsOk;
    ThrowsServes(h, t);
    if h.instances[h.activations[t].instance].state == VERIFIED {
      CalmKeeps(h, Enter(h, t));
    }
  }

  /** What was staged becomes live as its owner becomes active. */
  lemma PublishServes(h: Host, t: nat)
    requires ServedOk(h) && WaitsOk(h) && Busy(h, t)
    ensures ServedOk(Publish(h, t)) && WaitsOk(Publish(h, t))
  {
    hide Throws;
    ThrowsServes(h, t);
    if Ready(h, t) {
      WaitsKeeps(h, Publish(h, t));
    }
  }

  /** What is provided is live at once by an active owner, and staged by one on its way. */
  lemma ProvidesExactly(h: Host, i: nat)
    requires i < |h.instances| && Live(h.instances[i], true)
    ensures
      var g, n := Provide(h, i), |h.registrations|;
      && |g.registrations| == n + 1 && g.registrations[..n] == h.registrations
      && g.registrations[n].owner == i
      && (g.registrations[n].live <==> h.instances[i].state == ACTIVE)
      && (g.registrations[n].staged <==> h.instances[i].state == ACTIVATING)
      && g.instances[i].effects == h.instances[i].effects + [Untouched]
  {
  }

  lemma ProvideServes(h: Host, i: nat)
    requires ServedOk(h) && WaitsOk(h) && i < |h.instances| && Live(h.instances[i], true)
    ensures ServedOk(Provide(h, i)) && WaitsOk(Provide(h, i))
  {
    var g := Provide(h, i);
    assert forall x: nat :: x < |h.instances| ==> g.instances[x].state == h.instances[x].state;
    WaitsKeeps(h, g);
  }

  lemma RemoveServes(h: Host, r: nat)
    requires ServedOk(h) && WaitsOk(h) && r < |h.registrations|
    ensures
      var g := h.(registrations := h.registrations[r := h.registrations[r].(live := false, staged := false)]);
      ServedOk(g) && WaitsOk(g)
  {
  }

  lemma UndoServes(h: Host, i: nat, failures: bool, y: Instance)
    requires Books(h) && ServedOk(h) && WaitsOk(h) && i < |h.instances| && Undoes(h.instances[i], failures, y)
    ensures ServedOk(Put(h, i, y)) && WaitsOk(Put(h, i, y))
  {
    assert h.instances[i].state != ACTIVE by { CleaningIsOver(h, i); }
    hide Books;
    CalmKeeps(h, Put(h, i, y));
  }

  lemma CleaningIsOver(h: Host, i: nat)
    requires Books(h) && i < |h.instances| && h.instances[i].stage.Cleaning?
    ensures h.instances[i].state != ACTIVE
  {
    hide Path, EffectsOk;
    assert InstanceOk(h.instances[i]);
  }

  lemma SweepServes(h: Host, i: nat, g: Host)
    requires ServedOk(h) && WaitsOk(h) && i < |h.instances| && Sweeps(h, i, g)
    ensures ServedOk(g) && WaitsOk(g)
  {
    hide Dispose, ServedOk, WaitsOk;
    var n := h.instances[i].stage.next;
    if n < |h.instances| && i in h.instances[n].dependencies && h.instances[n].stage != Finished {
      DisposeServes(h, n);
    } else {
      CalmKeeps(h, g);
    }
  }

  lemma StepServes(h: Host, e: Event, g: Host)
    requires Books(h) && ServedOk(h) && WaitsOk(h) && Step(h, e, g)
    ensures ServedOk(g) && WaitsOk(g)
  {
    hide Books, ServedOk, WaitsOk, Dispose, Throws, Undoes, Choose, Publish, Enter, Join, Begin, Provide, Sweeps, EverActive, Calm;
    match e
    case Begins(i) => BeginServes(h, i);
    case Chooses(t, p) => ChooseServes(h, t, h.activations[t].phase.k, p);
    case Joins(t) => JoinServes(h, t, h.activations[t].phase.k, h.activations[t].phase.provider);
    case Enters(t) => EnterServes(h, t);
    case Publishes(t) => PublishServes(h, t);
    case Fails(t) => ThrowsServes(h, t);
    case Provides(i) => ProvideServes(h, i);
    case Removes(r) => RemoveServes(h, r);
    case Disposes(i) => DisposeServes(h, i);
    case SweepTurn(i) => SweepServes(h, i, g);
    case UndoTurn(i, failures) =>
      var y :| Undoes(h.instances[i], failures, y) && g == Put(h, i, y);
      UndoServes(h, i, failures, y);
    case _ =>
      QuietIsCalm(h, e, g);
      CalmKeeps(h, g);
  }

  lemma QuietIsCalm(h: Host, e: Event, g: Host)
    requires Step(h, e, g)
    requires e.Discovers? || e.Owns? || e.Cleans? || e.Settles? || e.Invokes? || e.Returns? || e.Empowers?
    ensures Calm(h, g)
  {
    hide Dispose, Throws, Undoes, Choose, Publish, Enter, Join, Begin, Provide, Sweeps, EverActive;
  }

  lemma {:induction false} RunServes(hs: seq<Host>, es: seq<Event>, i: nat)
    requires Run(hs, es) && i < |hs|
    ensures ServedOk(hs[i]) && WaitsOk(hs[i])
  {
    hide Step, Books;
    if i > 0 {
      RunServes(hs, es, i - 1);
      RunKeeps(hs, es, i - 1);
      assert Step(hs[i - 1], es[i - 1], hs[i - 1 + 1]);
      StepServes(hs[i - 1], es[i - 1], hs[i]);
    }
  }

  /** In every state of every run: what can be called belongs to an active plugin; no
      activation waits for a plugin on whose behalf it runs; and no plugin depends on
      itself. */
  lemma OnlyTheActiveServe(hs: seq<Host>, es: seq<Event>, i: nat)
    requires Run(hs, es) && i < |hs|
    ensures forall r :: 0 <= r < |hs[i].registrations| && hs[i].registrations[r].live ==>
      hs[i].registrations[r].owner < |hs[i].instances| && hs[i].instances[hs[i].registrations[r].owner].state == ACTIVE
    ensures forall t :: 0 <= t < |hs[i].activations| && hs[i].activations[t].phase.Awaiting? ==>
      hs[i].activations[t].phase.provider !in hs[i].activations[t].stack
    ensures forall x: nat :: !DependsOn(hs[i], x, x)
  {
    hide Run;
    RunServes(hs, es, i);
  }

  /** Who may do what: only an active instance or one on its way up provides or comes to own
      anything; only an active one calls, and only what an active one serves; and no power
      is given to one that has ended. */
  lemma OnlyTheLiveAct(h: Host, e: Event, g: Host)
    requires Books(h) && Step(h, e, g)
    ensures |g.registrations| > |h.registrations| ==>
      e.Provides? && e.i < |h.instances| && h.instances[e.i].stage == NotBegun
      && (h.instances[e.i].state == ACTIVE || h.instances[e.i].state == ACTIVATING)
    ensures forall x: nat :: x < |h.instances| && x < |g.instances| && |g.instances[x].effects| > |h.instances[x].effects| ==>
      h.instances[x].stage == NotBegun && (h.instances[x].state == ACTIVE || h.instances[x].state == ACTIVATING)
    ensures forall c :: c in g.calls && c !in h.calls ==>
      && g.calls[c].caller < |h.instances| && h.instances[g.calls[c].caller].state == ACTIVE
      && g.calls[c].provider < |h.instances| && h.instances[g.calls[c].provider].state == ACTIVE
    ensures |g.grants| > |h.grants| ==>
      e.Empowers? && e.i < |h.instances|
      && h.instances[e.i].state != QUIESCING && h.instances[e.i].state != DISPOSED && h.instances[e.i].state != FAILED
  {
    hide Books, Throws, Choose, Publish, Enter, Join, Begin, Undoes, Sweeps, Dispose, EverActive, Adds, StartClean;
    match e
    case Provides(i) => LiveOwner(h, i);
    case Owns(i) => LiveOwner(h, i);
    case Invokes(i, r, c) =>
    case Empowers(i) =>
    case Discovers(needs) =>
    case _ =>
      hide Step;
      OthersAdd(h, e, g);
      AddsSays(h, g);
  }

  lemma AddsSays(h: Host, g: Host)
    requires Adds(h, g)
    ensures |g.registrations| == |h.registrations| && |g.grants| == |h.grants| && |g.instances| == |h.instances|
    ensures forall x: nat :: x < |h.instances| ==> |g.instances[x].effects| == |h.instances[x].effects|
    ensures forall c :: c in g.calls ==> c in h.calls
  {
  }

  lemma LiveOwner(h: Host, i: nat)
    requires Books(h) && i < |h.instances| && Live(h.instances[i], true)
    ensures h.instances[i].stage == NotBegun
  {
    LiveIsNotBegun(h, i);
  }

  lemma OthersAdd(h: Host, e: Event, g: Host)
    requires Step(h, e, g) && !e.Provides? && !e.Owns? && !e.Invokes? && !e.Empowers? && !e.Discovers?
    ensures Adds(h, g)
  {
    hide Throws, Choose, Publish, Enter, Begin, Undoes, Sweeps, Dispose, EverActive;
    match e
    case Begins(i) => BeginAdds(h, i);
    case Chooses(t, p) => ChooseAdds(h, t, h.activations[t].phase.k, p);
    case Enters(t) => EnterAdds(h, t);
    case Publishes(t) => PublishAdds(h, t);
    case Fails(t) => ThrowsAdds(h, t);
    case Disposes(i) => DisposeAdds(h, i);
    case SweepTurn(i) => SweepAdds(h, i, g);
    case UndoTurn(i, failures) =>
      var y :| Undoes(h.instances[i], failures, y) && g == Put(h, i, y);
      UndoCleans(h.instances[i], failures, y);
    case _ =>
  }

  lemma ChooseAdds(h: Host, t: nat, k: nat, p: nat)
    requires Busy(h, t) && p < |h.instances|
    ensures Adds(h, Choose(h, t, k, p))
  {
    hide Throws;
    ThrowsAdds(h, t);
  }

  /** Nothing new belongs to anybody. */
  ghost predicate Adds(h: Host, g: Host) {
    && |g.registrations| == |h.registrations| && |g.grants| == |h.grants| && |g.instances| == |h.instances|
    && (forall x: nat :: x < |h.instances| ==> |g.instances[x].effects| == |h.instances[x].effects|)
    && (forall c :: c in g.calls ==> c in h.calls)
  }

  lemma DisposeAdds(h: Host, i: nat)
    requires i < |h.instances|
    ensures Adds(h, Dispose(h, i))
  {
  }

  lemma ThrowsAdds(h: Host, t: nat)
    requires Busy(h, t)
    ensures Adds(h, Throws(h, t))
  {
    hide Dispose;
    DisposeAdds(Phased(h, t, Over), h.activations[t].instance);
  }

  lemma BeginAdds(h: Host, i: nat)
    requires i < |h.instances|
    ensures Adds(h, Begin(h, i))
  {
  }

  lemma EnterAdds(h: Host, t: nat)
    requires Busy(h, t)
    ensures Adds(h, Enter(h, t))
  {
    hide Throws;
    ThrowsAdds(h, t);
  }

  lemma PublishAdds(h: Host, t: nat)
    requires Busy(h, t)
    ensures Adds(h, Publish(h, t))
  {
    hide Throws;
    ThrowsAdds(h, t);
  }

  lemma SweepAdds(h: Host, i: nat, g: Host)
    requires i < |h.instances| && Sweeps(h, i, g)
    ensures Adds(h, g)
  {
    hide Dispose;
    var n := h.instances[i].stage.next;
    if n < |h.instances| { DisposeAdds(h, n); }
  }
}
