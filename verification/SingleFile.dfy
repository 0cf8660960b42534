/** The care under which every join is safe: nobody begins to activate a plugin that
    somebody is activating. */
module SingleFile {
  import opened Resolution
  import opened Lifecycles
  import opened Disposal
  import opened Dependents

  /** What can be checked before activating p. */
  ghost predicate Idle(h: Host, p: nat) {
    forall t :: 0 <= t < |h.activations| && h.activations[t].phase != Over ==> h.activations[t].instance != p
  }

  ghost predicate Orderly(h: Host, e: Event) {
    match e
    case Begins(i) => Idle(h, i)
    case Chooses(_, p) => p < |h.instances| && h.instances[p].state == VERIFIED ==> Idle(h, p)
    case _ => true
  }

  ghost predicate OneAtATime(hs: seq<Host>, es: seq<Event>)
    requires |hs| == |es| + 1
  {
    forall i :: 0 <= i < |es| ==> Orderly(hs[i], es[i])
  }

  /** One activation in progress for each instance at most, and none for one that has
      been active. */
  ghost predicate SingleOk(h: Host) {
    && (forall t, u :: 0 <= t < u < |h.activations| && h.activations[t].phase != Over && h.activations[u].phase != Over ==>
          h.activations[t].instance != h.activations[u].instance)
    && (forall t :: 0 <= t < |h.activations| && h.activations[t].phase != Over ==>
          h.activations[t].instance < |h.instances| && !EverActive(h.instances[h.activations[t].instance]))
  }

  /** No activation begins, none is resumed, and nobody becomes active. */
  ghost predicate Fewer(h: Host, g: Host) {
    && |g.activations| == |h.activations| && |h.instances| <= |g.instances|
    && (forall t :: 0 <= t < |h.activations| ==>
          g.activations[t].instance == h.activations[t].instance && (g.activations[t].phase != Over ==> h.activations[t].phase != Over))
    && (forall x: nat :: x < |h.instances| && EverActive(g.instances[x]) ==> EverActive(h.instances[x]))
  }

  lemma FewerKeeps(h: Host, g: Host)
    requires SingleOk(h) && Fewer(h, g)
    ensures SingleOk(g)
  {
    hide EverActive;
  }

  lemma StartKeeps(h: Host, p: nat, stack: set<nat>)
    requires SingleOk(h) && Idle(h, p) && p < |h.instances| && !EverActive(h.instances[p])
    ensures SingleOk(Start(h, p, stack))
  {
    hide EverActive;
  }

  lemma VerifiedNotYet(h: Host, p: nat)
    requires Books(h) && p < |h.instances| && h.instances[p].state == VERIFIED
    ensures !EverActive(h.instances[p])
  {
    hide Path, EffectsOk;
    assert InstanceOk(h.instances[p]);
  }

  lemma DisposeFewer(h: Host, i: nat)
    requires i < |h.instances|
    ensures Fewer(h, Dispose(h, i))
  {
  }

  lemma ThrowsFewer(h: Host, t: nat)
    requires Busy(h, t)
    ensures Fewer(h, Throws(h, t))
  {
    hide EverActive, Dispose;
    DisposeFewer(Phased(h, t, Over), h.activations[t].instance);
  }

  lemma BeginKeeps(h: Host, i: nat)
    requires Books(h) && SingleOk(h) && i < |h.instances| && Idle(h, i)
    ensures SingleOk(Begin(h, i))
  {
    hide Books;
    var g := Put(h, i, h.instances[i].(asked := true));
    FewerKeeps(h, g);
    if h.instances[i].state == VERIFIED {
      VerifiedNotYet(h, i);
      SameHistory(h.instances[i], g.instances[i]);
      hide EverActive;
      StartKeeps(g, i, {});
    }
  }

  lemma ChooseKeeps(h: Host, t: nat, k: nat, p: nat)
    requires Books(h) && SingleOk(h) && Busy(h, t) && p < |h.instances| && (h.instances[p].state == VERIFIED ==> Idle(h, p))
    ensures SingleOk(Choose(h, t, k, p))
  {
    hide Books, EverActive, Throws;
    ThrowsFewer(h, t);
    FewerKeeps(h, Throws(h, t));
    var g := Phased(h, t, Awaiting(k, p));
    FewerKeeps(h, g);
    if h.instances[p].state == VERIFIED {
      VerifiedNotYet(h, p);
      StartKeeps(g, p, h.activations[t].stack);
    }
  }

  /** Who becomes active has no other activation. */
  lemma PublishKeeps(h: Host, t: nat)
    requires SingleOk(h) && Busy(h, t)
    ensures SingleOk(Publish(h, t))
  {
    if Ready(h, t) {
      var i := h.activations[t].instance;
      var g := Publish(h, t);
      hide EverActive;
      assert forall x: nat :: x < |h.instances| && x != i ==> g.instances[x] == h.instances[x];
      forall u | 0 <= u < |g.activations| && g.activations[u].phase != Over
        ensures g.activations[u].instance != i && g.activations[u] == h.activations[u]
      {
        assert u != t;
      }
    } else {
      hide EverActive, Throws;
      ThrowsFewer(h, t);
      FewerKeeps(h, Throws(h, t));
    }
  }

  lemma EnterKeeps(h: Host, t: nat)
    requires SingleOk(h) && Busy(h, t)
    ensures SingleOk(Enter(h, t))
  {
    if h.instances[h.activations[t].instance].state == VERIFIED {
      FewerKeeps(h, Enter(h, t));
    } else {
      hide EverActive, Throws;
      ThrowsFewer(h, t);
      FewerKeeps(h, Throws(h, t));
    }
  }

  lemma StepKeepsSingle(h: Host, e: Event, g: Host)
    requires Books(h) && SingleOk(h) && Step(h, e, g) && Orderly(h, e)
    ensures SingleOk(g)
  {
    hide Books, SingleOk, Dispose, Throws, Undoes, Choose, Publish, Enter, Begin, Sweeps, EverActive, Idle;
    match e
    case Begins(i) => BeginKeeps(h, i);
    case Chooses(t, p) => ChooseKeeps(h, t, h.activations[t].phase.k, p);
    case Enters(t) => EnterKeeps(h, t);
    case Publishes(t) => PublishKeeps(h, t);
    case Fails(t) => ThrowsFewer(h, t); FewerKeeps(h, g);
    case _ => QuietFewer(h, e, g); FewerKeeps(h, g);
  }

  lemma QuietFewer(h: Host, e: Event, g: Host)
    requires Step(h, e, g) && !e.Begins? && !e.Chooses? && !e.Enters? && !e.Publishes? && !e.Fails?
    ensures Fewer(h, g)
  {
    hide Dispose, Throws, Choose, Publish, Enter, Begin, Undoes, Sweeps;
    match e
    case Disposes(i) => DisposeFewer(h, i);
    case SweepTurn(i) => SweepFewer(h, i, g);
    case UndoTurn(i, failures) =>
      var y :| Undoes(h.instances[i], failures, y) && g == Put(h, i, y);
      UndoFewer(h, i, failures, y);
    case _ =>
  }

  lemma SweepFewer(h: Host, i: nat, g: Host)
    requires i < |h.instances| && Sweeps(h, i, g)
    ensures Fewer(h, g)
  {
    hide Dispose;
    var n := h.instances[i].stage.next;
    if n < |h.instances| { DisposeFewer(h, n); }
  }

  lemma UndoFewer(h: Host, i: nat, failures: bool, y: Instance)
    requires i < |h.instances| && Undoes(h.instances[i], failures, y)
    ensures Fewer(h, Put(h, i, y))
  {
  }

  lemma {:induction false} RunKeepsSingle(hs: seq<Host>, es: seq<Event>, n: nat)
    requires Run(hs, es) && OneAtATime(hs, es) && n < |hs|
    ensures SingleOk(hs[n])
  {
    hide Books, SingleOk, Step, Orderly;
    if n == 0 {
      NobodyInLine(hs[0]);
    } else {
      RunKeepsSingle(hs, es, n - 1);
      RunKeeps(hs, es, n - 1);
      assert Step(hs[n - 1], es[n - 1], hs[n - 1 + 1]);
      StepKeepsSingle(hs[n - 1], es[n - 1], hs[n]);
    }
  }

  lemma NobodyInLine(h: Host)
    requires h.activations == []
    ensures SingleOk(h)
  {
  }

  /** With one activation of a plugin at a time every join is safe. */
  lemma OneAtATimeIsSafe(hs: seq<Host>, es: seq<Event>)
    requires Run(hs, es) && OneAtATime(hs, es)
    ensures AllSafe(hs, es)
  {
    hide Step, Orderly, EverActive;
    forall n: nat, i: nat, k: nat, p: nat | n < |es| && JoinIs(hs[n], es[n], i, k, p)
      ensures SafeJoin(hs[n], i, p)
    {
      RunKeepsSingle(hs, es, n);
    }
  }
}
