/** Activation and disposal of plugin instances: every stretch of code between two awaits
    is one step, and steps of different instances interleave freely. */
module Lifecycles {
  import opened Resolution

  // --------------------------------------------------------------- one instance

  datatype Clean = Untouched | Started | Cleaned

  /** How far an instance's disposal has come: through the instances that may depend on
      it, then back through its effects. */
  datatype Stage = NotBegun | Sweeping(next: nat) | Cleaning(left: nat) | Finished

  /** `needs` is the length of the manifest's `requires`; `asked` says that `activate` has
      been called, which happens once at most. `begun` lists the cleanups ever started,
      `undone` those the disposal itself started. */
  datatype Instance = Instance(
    state: Lifecycle,
    history: seq<Lifecycle>,
    needs: nat,
    asked: bool,
    dependencies: set<nat>,
    token: bool,
    effects: seq<Clean>,
    begun: seq<nat>,
    undone: seq<nat>,
    stage: Stage,
    wasActive: bool)

  predicate Allowed(a: Lifecycle, b: Lifecycle) {
    match a
    case DISCOVERED => b == VERIFIED || b == FAILED
    case VERIFIED => b == RESOLVED || b == FAILED
    case RESOLVED => b == ACTIVATING || b == FAILED
    case ACTIVATING => b == ACTIVE || b == FAILED
    case ACTIVE => b == QUIESCING
    case QUIESCING => b == DISPOSED || b == FAILED
    case DISPOSED => false
    case FAILED => false
  }

  function To(i: Instance, s: Lifecycle): Instance {
    i.(state := s, history := i.history + [s])
  }

  predicate Ended(i: Instance) {
    i.state == QUIESCING || i.state == DISPOSED || i.state == FAILED
  }

  /** `live`, while activating or not. */
  predicate Live(i: Instance, activating: bool) {
    i.token && (i.state == ACTIVE || (activating && i.state == ACTIVATING))
  }

  predicate EverActive(i: Instance) {
    ACTIVE in i.history
  }

  ghost predicate Path(history: seq<Lifecycle>) {
    && history != [] && history[0] == DISCOVERED
    && forall k :: 0 <= k < |history| - 1 ==> Allowed(history[k], history[k + 1])
  }

  /** An instance by itself: its history is a path of the transition table; it is ended
      exactly when its disposal has begun; effects behind the disposal's position are
      cleaned, each cleanup was started once, the disposal's own ones backwards. */
  ghost predicate InstanceOk(i: Instance) {
    && Path(i.history) && i.history[|i.history| - 1] == i.state
    && (i.stage == NotBegun <==> !Ended(i))
    && (i.token <==> i.stage == NotBegun)
    && (EverActive(i) <==> i.state == ACTIVE || i.wasActive)
    && (i.wasActive ==> i.stage != NotBegun)
    && (i.stage == Finished ==> i.state == DISPOSED || i.state == FAILED)
    && (i.stage != NotBegun && i.stage != Finished ==> i.state == if i.wasActive then QUIESCING else FAILED)
    && EffectsOk(i)
  }

  ghost predicate EffectsOk(i: Instance) {
    && StartsOk(i.effects, i.begun)
    && (i.stage.Cleaning? ==> i.stage.left <= |i.effects| && CleanFrom(i.effects, i.stage.left))
    && (i.stage == Finished ==> CleanFrom(i.effects, 0))
    && (i.stage.NotBegun? || i.stage.Sweeping? ==> i.undone == [])
    && Backwards(i.undone, i.begun)
    && (i.stage.Cleaning? ==> forall e: nat :: e < |i.undone| ==> i.undone[e] >= i.stage.left - 1)
  }

  ghost predicate StartsOk(effects: seq<Clean>, begun: seq<nat>) {
    && (forall e: nat, f: nat :: e < f < |begun| ==> begun[e] != begun[f])
    && (forall e :: e in begun ==> e < |effects|)
    && (forall e: nat :: e < |effects| ==> (effects[e] == Untouched <==> e !in begun))
  }

  ghost predicate CleanFrom(effects: seq<Clean>, n: nat) {
    forall e: nat :: n <= e < |effects| ==> effects[e] == Cleaned
  }

  ghost predicate Backwards(undone: seq<nat>, begun: seq<nat>) {
    && (forall e: nat, f: nat :: e < f < |undone| ==> undone[e] > undone[f])
    && (forall e :: e in undone ==> e in begun)
  }

  // ------------------------------------------------------------------- the host

  /** `staged` until its owner is published. */
  datatype Registration = Registration(owner: nat, live: bool, staged: bool)

  datatype Call = Call(caller: nat, provider: nat)

  datatype Authority = Authority(holder: nat, revoked: bool)

  /** An `activateTree` in progress: about to look for its k-th need, waiting for the
      provider it chose, running the plugin, or over. */
  datatype Phase = Choosing(k: nat) | Awaiting(k: nat, provider: nat) | Running | Over

  /** `stack` are the instances on whose behalf it runs, its own included. */
  datatype Activation = Activation(instance: nat, stack: set<nat>, phase: Phase)

  datatype Host = Host(
    instances: seq<Instance>,
    registrations: seq<Registration>,
    calls: map<nat, Call>,
    grants: seq<Authority>,
    activations: seq<Activation>)

  function Put(h: Host, i: nat, x: Instance): Host
    requires i < |h.instances|
  {
    h.(instances := h.instances[i := x])
  }

  function Discovered(needs: nat): Instance {
    Instance(VERIFIED, [DISCOVERED, VERIFIED], needs, false, {}, true, [], [], [], NotBegun, false)
  }

  /** The synchronous part of `dispose`. */
  function Dispose(h: Host, i: nat): Host
    requires i < |h.instances|
  {
    var x := h.instances[i];
    if x.stage != NotBegun || Ended(x) then h
    else
      var active := x.state == ACTIVE;
      var ended := To(x, if active then QUIESCING else FAILED).(token := false, stage := Sweeping(0), wasActive := active);
      Host(
        h.instances[i := ended],
        seq(|h.registrations|, r requires 0 <= r < |h.registrations| =>
          if h.registrations[r].owner == i then h.registrations[r].(live := false) else h.registrations[r]),
        map c | c in h.calls && h.calls[c].caller != i && h.calls[c].provider != i :: h.calls[c],
        seq(|h.grants|, g requires 0 <= g < |h.grants| =>
          if h.grants[g].holder == i then h.grants[g].(revoked := true) else h.grants[g]),
        h.activations)
  }

  /** One turn of the loop over possible dependents: the next one does not depend on i,
      or is disposed of first and waited for. */
  ghost predicate Sweeps(h: Host, i: nat, g: Host)
    requires i < |h.instances|
  {
    var x := h.instances[i];
    && x.stage.Sweeping?
    && var n := x.stage.next;
       if n >= |h.instances| then g == Put(h, i, x.(stage := Cleaning(|x.effects|)))
       else if i !in h.instances[n].dependencies || h.instances[n].stage == Finished then
         g == Put(h, i, x.(stage := Sweeping(n + 1)))
       else h.instances[n].stage == NotBegun && g == Dispose(h, n)
  }

  function StartClean(x: Instance, e: nat): Instance
    requires e < |x.effects|
  {
    x.(effects := x.effects[e := Started], begun := x.begun + [e])
  }

  /** One turn of the loop over effects; `clean` does not start a cleanup twice. At the
      end an instance that was active gets its last state. */
  ghost predicate Undoes(x: Instance, failures: bool, y: Instance) {
    && x.stage.Cleaning?
    && var n := x.stage.left;
       if n == 0 || n > |x.effects| then
         y == (if x.wasActive then To(x, if failures then FAILED else DISPOSED) else x).(stage := Finished)
       else if x.effects[n - 1] == Cleaned then y == x.(stage := Cleaning(n - 1))
       else x.effects[n - 1] == Untouched && y == StartClean(x, n - 1).(undone := x.undone + [n - 1])
  }

  function Phased(h: Host, t: nat, p: Phase): Host
    requires t < |h.activations|
  {
    h.(activations := h.activations[t := h.activations[t].(phase := p)])
  }

  /** An activation that throws disposes of its instance. */
  function Throws(h: Host, t: nat): Host
    requires t < |h.activations|
  {
    var g := Phased(h, t, Over);
    if h.activations[t].instance < |h.instances| then Dispose(g, h.activations[t].instance) else g
  }

  /** What `activate` came to: published only while still activating, with its token, and
      with every dependency active at this very moment. */
  function Publish(h: Host, t: nat): Host
    requires t < |h.activations| && h.activations[t].instance < |h.instances|
  {
    var i := h.activations[t].instance;
    var x := h.instances[i];
    if Live(x, true) && x.state == ACTIVATING
       && forall d | d in x.dependencies :: d < |h.instances| && h.instances[d].state == ACTIVE
    then
      Phased(h, t, Over).(
        instances := h.instances[i := To(x, ACTIVE)],
        registrations := seq(|h.registrations|, r requires 0 <= r < |h.registrations| =>
          if h.registrations[r].owner == i && h.registrations[r].staged then Registration(i, true, false) else h.registrations[r]))
    else Throws(h, t)
  }

  /** All needs are met: the plugin may run. */
  function Enter(h: Host, t: nat): Host
    requires t < |h.activations| && h.activations[t].instance < |h.instances|
  {
    var i := h.activations[t].instance;
    if h.instances[i].state == VERIFIED then Phased(Put(h, i, To(To(h.instances[i], RESOLVED), ACTIVATING)), t, Running)
    else Throws(h, t)
  }

  /** The provider has been activated: the dependency is noted, whatever has become of
      either side since. */
  function Join(h: Host, t: nat, k: nat, p: nat): Host
    requires t < |h.activations| && h.activations[t].instance < |h.instances|
  {
    var i := h.activations[t].instance;
    Phased(Put(h, i, h.instances[i].(dependencies := h.instances[i].dependencies + {p})), t, Choosing(k + 1))
  }

  datatype Event =
    | Discovers(needs: nat)
    | Begins(i: nat)
    | Chooses(t: nat, p: nat)
    | Joins(t: nat)
    | Enters(t: nat)
    | Publishes(t: nat)
    | Fails(t: nat)
    | Provides(i: nat)
    | Owns(i: nat)
    | Removes(r: nat)
    | Cleans(i: nat, e: nat)
    | Settles(i: nat, e: nat)
    | Disposes(i: nat)
    | SweepTurn(i: nat)
    | UndoTurn(i: nat, failures: bool)
    | Invokes(i: nat, r: nat, c: nat)
    | Returns(c: nat)
    | Empowers(i: nat)

  function Start(h: Host, p: nat, stack: set<nat>): Host {
    h.(activations := h.activations + [Activation(p, stack + {p}, Choosing(0))])
  }

  /** `activate`: the first call starts the activation, every later one gets its promise. */
  function Begin(h: Host, i: nat): Host
    requires i < |h.instances|
  {
    var g := Put(h, i, h.instances[i].(asked := true));
    if h.instances[i].asked then h
    else if h.instances[i].state == VERIFIED then Start(g, i, {})
    else g
  }

  /** A provider that is not active yet is activated first, whether or not anybody is
      activating it already; one that cannot be any more, or that this activation runs
      on behalf of, is an error. */
  function Choose(h: Host, t: nat, k: nat, p: nat): Host
    requires t < |h.activations| && p < |h.instances|
  {
    if p in h.activations[t].stack then Throws(h, t)
    else if h.instances[p].state == ACTIVE then Phased(h, t, Awaiting(k, p))
    else if h.instances[p].state == VERIFIED then Start(Phased(h, t, Awaiting(k, p)), p, h.activations[t].stack)
    else Throws(h, t)
  }

  function Provide(h: Host, i: nat): Host
    requires i < |h.instances|
  {
    var x := h.instances[i];
    Put(h, i, x.(effects := x.effects + [Untouched])).(
      registrations := h.registrations + [Registration(i, x.state == ACTIVE, x.state == ACTIVATING)])
  }

  predicate Busy(h: Host, t: nat) {
    t < |h.activations| && h.activations[t].phase != Over && h.activations[t].instance < |h.instances|
  }

  ghost predicate Step(h: Host, e: Event, g: Host) {
    match e
    case Discovers(needs) => g == h.(instances := h.instances + [Discovered(needs)])
    case Begins(i) => i < |h.instances| && g == Begin(h, i)
    case Chooses(t, p) =>
      && Busy(h, t) && h.activations[t].phase.Choosing? && p < |h.instances|
      && h.activations[t].phase.k < h.instances[h.activations[t].instance].needs
      && g == Choose(h, t, h.activations[t].phase.k, p)
    case Joins(t) =>
      && Busy(h, t) && h.activations[t].phase.Awaiting? && h.activations[t].phase.provider < |h.instances|
      && EverActive(h.instances[h.activations[t].phase.provider])
      && g == Join(h, t, h.activations[t].phase.k, h.activations[t].phase.provider)
    case Enters(t) =>
      && Busy(h, t) && h.activations[t].phase.Choosing?
      && h.activations[t].phase.k >= h.instances[h.activations[t].instance].needs && g == Enter(h, t)
    case Publishes(t) => Busy(h, t) && h.activations[t].phase == Running && g == Publish(h, t)
    case Fails(t) => Busy(h, t) && g == Throws(h, t)
    case Provides(i) => i < |h.instances| && Live(h.instances[i], true) && g == Provide(h, i)
    case Owns(i) =>
      && i < |h.instances| && Live(h.instances[i], true)
      && g == Put(h, i, h.instances[i].(effects := h.instances[i].effects + [Untouched]))
    case Removes(r) =>
      r < |h.registrations| && g == h.(registrations := h.registrations[r := h.registrations[r].(live := false, staged := false)])
    case Cleans(i, e) =>
      && i < |h.instances| && e < |h.instances[i].effects| && h.instances[i].effects[e] == Untouched
      && g == Put(h, i, StartClean(h.instances[i], e))
    case Settles(i, e) =>
      && i < |h.instances| && e < |h.instances[i].effects| && h.instances[i].effects[e] == Started
      && g == Put(h, i, h.instances[i].(effects := h.instances[i].effects[e := Cleaned]))
    case Disposes(i) => i < |h.instances| && g == Dispose(h, i)
    case SweepTurn(i) => i < |h.instances| && Sweeps(h, i, g)
    case UndoTurn(i, failures) => i < |h.instances| && exists y :: Undoes(h.instances[i], failures, y) && g == Put(h, i, y)
    case Invokes(i, r, c) =>
      && i < |h.instances| && Live(h.instances[i], false) && r < |h.registrations| && h.registrations[r].live && c !in h.calls
      && h.registrations[r].owner < |h.instances| && h.instances[h.registrations[r].owner].state == ACTIVE
      && g == h.(calls := h.calls[c := Call(i, h.registrations[r].owner)])
    case Returns(c) => g == h.(calls := h.calls - {c})
    case Empowers(i) => i < |h.instances| && !Ended(h.instances[i]) && g == h.(grants := h.grants + [Authority(i, false)])
  }

  // --------------------------------------------------------------- what is kept

  /** Instance i's disposal has gone past x in its search for dependents. */
  predicate Passed(i: Instance, x: nat) {
    i.stage.Cleaning? || i.stage.Finished? || (i.stage.Sweeping? && i.stage.next > x)
  }

  predicate Begun(h: Host, i: nat) {
    i < |h.instances| ==> h.instances[i].stage != NotBegun
  }

  predicate DependsOn(h: Host, x: nat, d: nat) {
    x < |h.instances| && d in h.instances[x].dependencies
  }

  /** A dependency was active when it was noted. */
  ghost predicate KnownOk(h: Host) {
    forall x: nat, d: nat :: DependsOn(h, x, d) ==> d < |h.instances| && EverActive(h.instances[d])
  }

  /** An ended instance has nothing live, no calls and no powers. */
  ghost predicate OwnOk(h: Host) {
    && (forall r :: 0 <= r < |h.registrations| && h.registrations[r].live ==> !Begun(h, h.registrations[r].owner))
    && (forall c :: c in h.calls ==> !Begun(h, h.calls[c].caller) && !Begun(h, h.calls[c].provider))
    && (forall g :: 0 <= g < |h.grants| && !h.grants[g].revoked ==> !Begun(h, h.grants[g].holder))
  }

  ghost predicate AllOk(h: Host) {
    forall i :: 0 <= i < |h.instances| ==> InstanceOk(h.instances[i])
  }

  /** What every step keeps, however activations and disposals interleave. */
  ghost predicate Books(h: Host) {
    AllOk(h) && KnownOk(h) && OwnOk(h)
  }

  // ------------------------------------------------------- changing one instance

  /** y may take x's place as i: it depends on the same, has been active or not and ended
      or not like x. */
  ghost predicate Replaces(h: Host, i: nat, y: Instance) {
    && i < |h.instances| && InstanceOk(y)
    && y.dependencies == h.instances[i].dependencies
    && EverActive(y) == EverActive(h.instances[i])
    && (y.stage == NotBegun <==> h.instances[i].stage == NotBegun)
  }

  lemma PutKeeps(h: Host, i: nat, y: Instance)
    requires Books(h) && Replaces(h, i, y)
    ensures Books(Put(h, i, y))
  {
    hide InstanceOk, EverActive;
    var g := Put(h, i, y);
    assert forall x: nat, d: nat :: DependsOn(g, x, d) ==> DependsOn(h, x, d);
    assert forall k: nat :: Begun(g, k) == Begun(h, k);
  }

  lemma InstancesOk(h: Host)
    requires Books(h)
    ensures forall i: nat :: i < |h.instances| ==> InstanceOk(h.instances[i])
  {
  }

  lemma StepPath(i: Instance, s: Lifecycle)
    requires Path(i.history) && i.history[|i.history| - 1] == i.state && Allowed(i.state, s)
    ensures Path(To(i, s).history)
    ensures EverActive(To(i, s)) <==> EverActive(i) || s == ACTIVE
  {
  }

  lemma SameHistory(x: Instance, y: Instance)
    requires x.history == y.history
    ensures EverActive(x) == EverActive(y)
  {
  }

  lemma OwnKeeps(x: Instance)
    requires InstanceOk(x) && x.stage == NotBegun
    ensures InstanceOk(x.(effects := x.effects + [Untouched]))
  {
    hide Path;
  }

  lemma StartKeeps(x: Instance, e: nat)
    requires InstanceOk(x) && e < |x.effects| && x.effects[e] == Untouched
    ensures InstanceOk(StartClean(x, e))
  {
    hide Path;
    StartsMore(x.effects, x.begun, e);
  }

  lemma StartsMore(effects: seq<Clean>, begun: seq<nat>, e: nat)
    requires StartsOk(effects, begun) && e < |effects| && effects[e] == Untouched
    ensures StartsOk(effects[e := Started], begun + [e])
    ensures forall n: nat :: CleanFrom(effects, n) ==> CleanFrom(effects[e := Started], n)
  {
  }

  lemma SettleKeeps(x: Instance, e: nat)
    requires InstanceOk(x) && e < |x.effects| && x.effects[e] == Started
    ensures InstanceOk(x.(effects := x.effects[e := Cleaned]))
  {
    hide Path;
  }

  /** What has nothing to do with lifecycle or cleanup. */
  lemma AsideKeeps(x: Instance, y: Instance)
    requires InstanceOk(x) && y == x.(asked := y.asked, dependencies := y.dependencies)
    ensures InstanceOk(y) && EverActive(y) == EverActive(x)
  {
    hide Path;
    SameHistory(x, y);
  }

  lemma UndoOk(x: Instance, failures: bool, y: Instance)
    requires InstanceOk(x) && Undoes(x, failures, y)
    ensures InstanceOk(y) && EverActive(y) == EverActive(x) && y.dependencies == x.dependencies && y.stage != NotBegun
  {
    hide Path, StartsOk, Backwards;
    var n := x.stage.left;
    if n == 0 || n > |x.effects| {
      if x.wasActive {
        StepPath(x, if failures then FAILED else DISPOSED);
      }
    } else if x.effects[n - 1] == Cleaned {
    } else {
      StartKeeps(x, n - 1);
      UndoneMore(x.effects, x.undone, x.begun, n - 1);
    }
  }

  /** The disposal starts the cleanup in front of those it has started before. */
  lemma UndoneMore(effects: seq<Clean>, undone: seq<nat>, begun: seq<nat>, e: nat)
    requires StartsOk(effects, begun) && Backwards(undone, begun) && e < |effects| && effects[e] == Untouched
    requires forall f: nat :: f < |undone| ==> undone[f] >= e
    ensures Backwards(undone + [e], begun + [e])
  {
    assert forall f: nat :: f < |undone| ==> undone[f] in undone;
  }

  /** The loop over effects goes past an effect only when it is cleaned, and starts each
      cleanup once. */
  lemma UndoKeeps(h: Host, i: nat, failures: bool, y: Instance)
    requires Books(h) && i < |h.instances| && Undoes(h.instances[i], failures, y)
    ensures Books(Put(h, i, y))
  {
    hide Books, InstanceOk, EverActive, Undoes;
    InstancesOk(h);
    UndoOk(h.instances[i], failures, y);
    Undoing(h.instances[i], failures, y);
    PutKeeps(h, i, y);
  }

  lemma Undoing(x: Instance, failures: bool, y: Instance)
    requires Undoes(x, failures, y)
    ensures x.stage.Cleaning?
  {
  }

  lemma SweepKeeps(h: Host, i: nat, g: Host)
    requires Books(h) && i < |h.instances| && Sweeps(h, i, g)
    ensures Books(g)
  {
    hide Books, Dispose, EverActive, InstanceOk;
    InstancesOk(h);
    var x := h.instances[i];
    var n := x.stage.next;
    if n >= |h.instances| {
      SweptOk(x, Cleaning(|x.effects|));
      PutKeeps(h, i, x.(stage := Cleaning(|x.effects|)));
    } else if i !in h.instances[n].dependencies || h.instances[n].stage == Finished {
      SweptOk(x, Sweeping(n + 1));
      PutKeeps(h, i, x.(stage := Sweeping(n + 1)));
    } else {
      DisposeKeeps(h, n);
    }
  }

  lemma SweptOk(x: Instance, s: Stage)
    requires InstanceOk(x) && x.stage.Sweeping? && (s.Sweeping? || s == Cleaning(|x.effects|))
    ensures InstanceOk(x.(stage := s)) && EverActive(x.(stage := s)) == EverActive(x)
  {
    hide Path;
    SameHistory(x, x.(stage := s));
  }

  /** The instance's last state, registrations, calls and grants go together. */
  lemma DisposeKeeps(h: Host, i: nat)
    requires Books(h) && i < |h.instances|
    ensures Books(Dispose(h, i))
  {
    hide InstanceOk, EverActive, OwnOk;
    var x := h.instances[i];
    assert InstanceOk(x);
    if x.stage == NotBegun && !Ended(x) {
      var g := Dispose(h, i);
      DisposedOk(x, g.instances[i]);
      assert forall n: nat, d: nat :: DependsOn(g, n, d) ==> DependsOn(h, n, d);
      DisposeOwn(h, i);
    }
  }

  lemma DisposedOk(x: Instance, y: Instance)
    requires InstanceOk(x) && x.stage == NotBegun
    requires y == To(x, if x.state == ACTIVE then QUIESCING else FAILED).(token := false, stage := Sweeping(0), wasActive := x.state == ACTIVE)
    ensures InstanceOk(y) && EverActive(y) == EverActive(x)
  {
    StepPath(x, if x.state == ACTIVE then QUIESCING else FAILED);
    hide Path;
  }

  lemma DisposeOwn(h: Host, i: nat)
    requires OwnOk(h) && i < |h.instances| && h.instances[i].stage == NotBegun && !Ended(h.instances[i])
    ensures OwnOk(Dispose(h, i))
  {
    var g := Dispose(h, i);
    assert forall k: nat :: k != i ==> Begun(g, k) == Begun(h, k);
  }

  // -------------------------------------------------------------- activations

  lemma ActivationsKeep(h: Host, g: Host)
    requires Books(h) && g == h.(activations := g.activations)
    ensures Books(g)
  {
    hide InstanceOk, EverActive;
    assert forall x: nat, d: nat :: DependsOn(g, x, d) ==> DependsOn(h, x, d);
    assert forall k: nat :: Begun(g, k) == Begun(h, k);
  }

  lemma BeginKeeps(h: Host, i: nat)
    requires Books(h) && i < |h.instances|
    ensures Books(Begin(h, i))
  {
    hide Books, InstanceOk, EverActive;
    InstancesOk(h);
    var y := h.instances[i].(asked := true);
    AsideKeeps(h.instances[i], y);
    PutKeeps(h, i, y);
    ActivationsKeep(Put(h, i, y), Start(Put(h, i, y), i, {}));
  }

  lemma ThrowsKeeps(h: Host, t: nat)
    requires Books(h) && Busy(h, t)
    ensures Books(Throws(h, t))
  {
    hide Books, Dispose;
    ActivationsKeep(h, Phased(h, t, Over));
    DisposeKeeps(Phased(h, t, Over), h.activations[t].instance);
  }

  lemma ChooseKeeps(h: Host, t: nat, k: nat, p: nat)
    requires Books(h) && Busy(h, t) && p < |h.instances|
    ensures Books(Choose(h, t, k, p))
  {
    hide Books, Throws;
    ThrowsKeeps(h, t);
    var g := Phased(h, t, Awaiting(k, p));
    ActivationsKeep(h, g);
    ActivationsKeep(g, Start(g, p, h.activations[t].stack));
  }

  lemma JoinKeeps(h: Host, t: nat, k: nat, p: nat)
    requires Books(h) && Busy(h, t) && p < |h.instances| && EverActive(h.instances[p])
    ensures Books(Join(h, t, k, p))
  {
    hide InstanceOk, EverActive;
    var i := h.activations[t].instance;
    var y := h.instances[i].(dependencies := h.instances[i].dependencies + {p});
    var g := Put(h, i, y);
    InstancesOk(h);
    AsideKeeps(h.instances[i], y);
    assert forall x: nat, d: nat :: DependsOn(g, x, d) ==> (x == i && d == p) || DependsOn(h, x, d);
    assert forall n: nat :: Begun(g, n) == Begun(h, n);
    assert Books(g);
    ActivationsKeep(g, Join(h, t, k, p));
  }

  lemma EnterKeeps(h: Host, t: nat)
    requires Books(h) && Busy(h, t)
    ensures Books(Enter(h, t))
  {
    hide Books, InstanceOk, EverActive, Throws;
    InstancesOk(h);
    var i := h.activations[t].instance;
    if h.instances[i].state == VERIFIED {
      var y := To(To(h.instances[i], RESOLVED), ACTIVATING);
      EnteredOk(h.instances[i]);
      PutKeeps(h, i, y);
      ActivationsKeep(Put(h, i, y), Enter(h, t));
    } else {
      ThrowsKeeps(h, t);
    }
  }

  lemma EnteredOk(x: Instance)
    requires InstanceOk(x) && x.state == VERIFIED
    ensures
      var y := To(To(x, RESOLVED), ACTIVATING);
      InstanceOk(y) && EverActive(y) == EverActive(x) && x.stage == NotBegun
  {
    StepPath(x, RESOLVED);
    StepPath(To(x, RESOLVED), ACTIVATING);
    hide Path;
  }

  /** Whether the plugin that ran may become active. */
  predicate Ready(h: Host, t: nat)
    requires Busy(h, t)
  {
    var x := h.instances[h.activations[t].instance];
    && Live(x, true) && x.state == ACTIVATING
    && forall d | d in x.dependencies :: d < |h.instances| && h.instances[d].state == ACTIVE
  }

  lemma PublishKeeps(h: Host, t: nat)
    requires Books(h) && Busy(h, t)
    ensures Books(Publish(h, t))
  {
    if Ready(h, t) {
      hide InstanceOk, EverActive, OwnOk;
      InstancesOk(h);
      var g := Publish(h, t);
      PublishedOk(h.instances[h.activations[t].instance]);
      assert forall n: nat, d: nat :: DependsOn(g, n, d) ==> DependsOn(h, n, d);
      PublishOwn(h, t);
    } else {
      hide Books, Throws;
      ThrowsKeeps(h, t);
    }
  }

  lemma PublishedOk(x: Instance)
    requires InstanceOk(x) && x.state == ACTIVATING
    ensures InstanceOk(To(x, ACTIVE)) && EverActive(To(x, ACTIVE))
  {
    StepPath(x, ACTIVE);
    hide Path;
  }

  lemma PublishOwn(h: Host, t: nat)
    requires AllOk(h) && OwnOk(h) && Busy(h, t) && Ready(h, t)
    ensures OwnOk(Publish(h, t))
  {
    hide Path, EffectsOk;
    var g := Publish(h, t);
    assert InstanceOk(h.instances[h.activations[t].instance]);
    assert forall k: nat :: Begun(g, k) == Begun(h, k);
  }

  // ------------------------------------------------------------ everything else

  lemma DiscoverKeeps(h: Host, needs: nat)
    requires Books(h)
    ensures Books(h.(instances := h.instances + [Discovered(needs)]))
  {
    hide InstanceOk, EverActive;
    var g := h.(instances := h.instances + [Discovered(needs)]);
    assert forall k: nat :: k < |h.instances| ==> g.instances[k] == h.instances[k];
    assert InstanceOk(Discovered(needs)) by { DiscoveredOk(needs); }
    assert forall x: nat, d: nat :: DependsOn(g, x, d) ==> DependsOn(h, x, d);
    assert forall k: nat :: Begun(g, k) ==> Begun(h, k);
  }

  lemma DiscoveredOk(needs: nat)
    ensures InstanceOk(Discovered(needs))
  {
  }

  lemma LiveIsNotBegun(h: Host, i: nat)
    requires AllOk(h) && i < |h.instances| && (Live(h.instances[i], true) || Live(h.instances[i], false) || h.instances[i].state == ACTIVE || !Ended(h.instances[i]))
    ensures !Begun(h, i) && h.instances[i].stage == NotBegun
  {
    hide Path, EffectsOk;
    assert InstanceOk(h.instances[i]);
  }

  lemma OwnsKeeps(h: Host, i: nat)
    requires Books(h) && i < |h.instances| && Live(h.instances[i], true)
    ensures Books(Put(h, i, h.instances[i].(effects := h.instances[i].effects + [Untouched])))
  {
    hide InstanceOk, EverActive, KnownOk, OwnOk;
    var x := h.instances[i];
    LiveIsNotBegun(h, i);
    assert InstanceOk(x);
    OwnKeeps(x);
    SameHistory(x, x.(effects := x.effects + [Untouched]));
    PutKeeps(h, i, x.(effects := x.effects + [Untouched]));
  }

  /** Registrations, calls and powers belong to instances whose disposal has not begun. */
  lemma BelongingsKeep(h: Host, g: Host)
    requires Books(h) && OwnOk(g) && g.instances == h.instances
    ensures Books(g)
  {
    hide InstanceOk, EverActive, OwnOk;
    assert forall x: nat, d: nat :: DependsOn(g, x, d) ==> DependsOn(h, x, d);
  }

  lemma ProvidesKeeps(h: Host, i: nat)
    requires Books(h) && i < |h.instances| && Live(h.instances[i], true)
    ensures Books(Provide(h, i))
  {
    hide AllOk, KnownOk;
    OwnsKeeps(h, i);
    LiveIsNotBegun(h, i);
    var x := h.instances[i];
    var g := Put(h, i, x.(effects := x.effects + [Untouched]));
    assert !Begun(g, i);
    BelongingsKeep(g, Provide(h, i));
  }

  lemma CleansKeeps(h: Host, i: nat, y: Instance)
    requires Books(h) && i < |h.instances| && InstanceOk(y)
    requires y == h.instances[i].(effects := y.effects, begun := y.begun)
    ensures Books(Put(h, i, y))
  {
    hide Books, InstanceOk, EverActive;
    SameHistory(h.instances[i], y);
    PutKeeps(h, i, y);
  }

  lemma ActivationKeeps(h: Host, e: Event, g: Host)
    requires Books(h) && Step(h, e, g)
    requires e.Begins? || e.Chooses? || e.Joins? || e.Enters? || e.Publishes? || e.Fails?
    ensures Books(g)
  {
    hide Books, Throws, Publish, Enter, Join, Choose, Begin, EverActive;
    match e
    case Begins(i) => BeginKeeps(h, i);
    case Chooses(t, p) => ChooseKeeps(h, t, h.activations[t].phase.k, p);
    case Joins(t) => JoinKeeps(h, t, h.activations[t].phase.k, h.activations[t].phase.provider);
    case Enters(t) => EnterKeeps(h, t);
    case Publishes(t) => PublishKeeps(h, t);
    case Fails(t) => ThrowsKeeps(h, t);
  }

  lemma DisposalKeeps(h: Host, e: Event, g: Host)
    requires Books(h) && Step(h, e, g)
    requires e.Cleans? || e.Settles? || e.Disposes? || e.SweepTurn? || e.UndoTurn?
    ensures Books(g)
  {
    hide Books, InstanceOk, Dispose, Undoes, Sweeps;
    InstancesOk(h);
    match e
    case Cleans(i, n) => StartKeeps(h.instances[i], n); CleansKeeps(h, i, StartClean(h.instances[i], n));
    case Settles(i, n) => SettleKeeps(h.instances[i], n); CleansKeeps(h, i, h.instances[i].(effects := h.instances[i].effects[n := Cleaned]));
    case Disposes(i) => DisposeKeeps(h, i);
    case SweepTurn(i) => SweepKeeps(h, i, g);
    case UndoTurn(i, failures) =>
      var y :| Undoes(h.instances[i], failures, y) && g == Put(h, i, y);
      UndoKeeps(h, i, failures, y);
  }

  lemma BelongingSteps(h: Host, e: Event, g: Host)
    requires Books(h) && Step(h, e, g)
    requires e.Discovers? || e.Provides? || e.Owns? || e.Removes? || e.Invokes? || e.Returns? || e.Empowers?
    ensures Books(g)
  {
    hide AllOk, KnownOk, OwnOk, Provide;
    match e
    case Discovers(needs) => DiscoverKeeps(h, needs);
    case Provides(i) => ProvidesKeeps(h, i);
    case Owns(i) => OwnsKeeps(h, i);
    case _ =>
      BelongingsStayOwn(h, e, g);
      BelongingsKeep(h, g);
  }

  lemma BelongingsStayOwn(h: Host, e: Event, g: Host)
    requires AllOk(h) && OwnOk(h) && Step(h, e, g) && (e.Removes? || e.Invokes? || e.Returns? || e.Empowers?)
    ensures OwnOk(g)
  {
    hide AllOk, OwnOk, Dispose, Throws, Publish, Enter, Join, Choose, Begin, Provide, Sweeps, Undoes, StartClean, EverActive, Phased, Put;
    match e
    case Invokes(i, r, c) =>
      LiveIsNotBegun(h, i);
      LiveIsNotBegun(h, h.registrations[r].owner);
      CallStaysOwn(h, c, Call(i, h.registrations[r].owner));
    case Empowers(i) =>
      LiveIsNotBegun(h, i);
      PowerStaysOwn(h, i);
    case Removes(r) => RemovedStaysOwn(h, r);
    case Returns(c) => RemovedCallStaysOwn(h, c);
  }

  lemma CallStaysOwn(h: Host, c: nat, call: Call)
    requires OwnOk(h) && !Begun(h, call.caller) && !Begun(h, call.provider)
    ensures OwnOk(h.(calls := h.calls[c := call]))
  {
  }

  lemma RemovedCallStaysOwn(h: Host, c: nat)
    requires OwnOk(h)
    ensures OwnOk(h.(calls := h.calls - {c}))
  {
  }

  lemma PowerStaysOwn(h: Host, i: nat)
    requires OwnOk(h) && !Begun(h, i)
    ensures OwnOk(h.(grants := h.grants + [Authority(i, false)]))
  {
  }

  lemma RemovedStaysOwn(h: Host, r: nat)
    requires OwnOk(h) && r < |h.registrations|
    ensures OwnOk(h.(registrations := h.registrations[r := h.registrations[r].(live := false, staged := false)]))
  {
  }

  /** Every step of every instance, in any order. */
  lemma StepKeeps(h: Host, e: Event, g: Host)
    requires Books(h) && Step(h, e, g)
    ensures Books(g)
  {
    hide Books, Step;
    if e.Begins? || e.Chooses? || e.Joins? || e.Enters? || e.Publishes? || e.Fails? {
      ActivationKeeps(h, e, g);
    } else if e.Cleans? || e.Settles? || e.Disposes? || e.SweepTurn? || e.UndoTurn? {
      DisposalKeeps(h, e, g);
    } else {
      BelongingSteps(h, e, g);
    }
  }
}
