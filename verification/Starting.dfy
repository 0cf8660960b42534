/** Activation does come about: a plugin whose providers are active can be brought up, and
    what that makes of the host. */
module Starting {
  import opened Resolution
  import opened Lifecycles

  /** Steps lead from h to g. */
  ghost predicate Comes(h: Host, g: Host) {
    exists hs, es :: ComesBy(h, g, hs, es)
  }

  ghost predicate ComesBy(h: Host, g: Host, hs: seq<Host>, es: seq<Event>) {
    && |hs| == |es| + 1 && hs[0] == h && hs[|es|] == g
    && forall i :: 0 <= i < |es| ==> Step(hs[i], es[i], hs[i + 1])
  }

  lemma ComesNot(h: Host)
    ensures Comes(h, h)
  {
    var hs: seq<Host>, es: seq<Event> := [h], [];
    assert ComesBy(h, h, hs, es);
  }

  lemma ComesOn(h: Host, g: Host, e: Event, m: Host)
    requires Comes(h, g) && Step(g, e, m)
    ensures Comes(h, m)
  {
    hide Step;
    var hs, es :| ComesBy(h, g, hs, es);
    var more, done := hs + [m], es + [e];
    forall i | 0 <= i < |done|
      ensures Step(more[i], done[i], more[i + 1])
    {
      assert i < |es| ==> Step(hs[i], es[i], hs[i + 1]);
    }
    assert ComesBy(h, m, more, done);
  }

  /** What the activation has noted after its first k needs. */
  function Noted(ps: seq<nat>, k: nat): set<nat>
    requires k <= |ps|
  {
    set n | 0 <= n < k :: ps[n]
  }

  /** The host while instance i is being activated: k of its needs are met. */
  function Meeting(h: Host, i: nat, ps: seq<nat>, k: nat, phase: Phase): Host
    requires i < |h.instances| && k <= |ps|
  {
    h.(instances := h.instances[i := h.instances[i].(asked := true, dependencies := Noted(ps, k))],
       activations := h.activations + [Activation(i, {i}, phase)])
  }

  ghost predicate Startable(h: Host, i: nat, ps: seq<nat>) {
    && i < |h.instances| && h.instances[i].state == VERIFIED && !h.instances[i].asked
    && h.instances[i].dependencies == {} && h.instances[i].needs == |ps|
    && forall n :: 0 <= n < |ps| ==> ps[n] < |h.instances| && ps[n] != i && h.instances[ps[n]].state == ACTIVE
  }

  lemma Asks(h: Host, i: nat, ps: seq<nat>)
    requires Startable(h, i, ps)
    ensures Comes(h, Meeting(h, i, ps, 0, Choosing(0)))
  {
    ComesNot(h);
    hide Comes;
    var g := Meeting(h, i, ps, 0, Choosing(0));
    assert Noted(ps, 0) == {} && {} + {i} == {i};
    assert Begin(h, i) == g;
    ComesOn(h, h, Begins(i), g);
  }

  /** The next provider is active already, and is noted as a dependency. */
  lemma OneNeed(h: Host, i: nat, ps: seq<nat>, k: nat)
    requires Books(h) && Startable(h, i, ps) && k < |ps| && Comes(h, Meeting(h, i, ps, k, Choosing(k)))
    ensures Comes(h, Meeting(h, i, ps, k + 1, Choosing(k + 1)))
  {
    hide Comes, Books;
    var t, p := |h.activations|, ps[k];
    var a, b, c := Meeting(h, i, ps, k, Choosing(k)), Meeting(h, i, ps, k, Awaiting(k, p)), Meeting(h, i, ps, k + 1, Choosing(k + 1));
    assert Choose(a, t, k, p).activations == b.activations;
    ComesOn(h, a, Chooses(t, p), b);
    assert EverActive(h.instances[p]) by { ActiveEver(h, p); }
    hide EverActive;
    assert Noted(ps, k) + {p} == Noted(ps, k + 1);
    assert Join(b, t, k, p).activations == c.activations && Join(b, t, k, p).instances == c.instances;
    ComesOn(h, b, Joins(t), c);
  }

  lemma ActiveEver(h: Host, p: nat)
    requires Books(h) && p < |h.instances| && h.instances[p].state == ACTIVE
    ensures EverActive(h.instances[p])
  {
    hide Path, EffectsOk;
    assert InstanceOk(h.instances[p]);
  }

  lemma {:induction false} AllNeeds(h: Host, i: nat, ps: seq<nat>, k: nat)
    requires Books(h) && Startable(h, i, ps) && k <= |ps|
    ensures Comes(h, Meeting(h, i, ps, k, Choosing(k)))
  {
    hide Comes, Books, Startable;
    if k == 0 {
      Asks(h, i, ps);
    } else {
      AllNeeds(h, i, ps, k - 1);
      OneNeed(h, i, ps, k - 1);
    }
  }

  /** A plugin that may be activated and whose needs are all met by active providers can
      become active: it then depends on exactly those, everything it had staged is live,
      and no other instance has changed. */
  lemma Activates(h: Host, i: nat, ps: seq<nat>) returns (g: Host)
    requires Books(h) && Startable(h, i, ps)
    ensures Comes(h, g) && |g.instances| == |h.instances|
    ensures g.instances[i].state == ACTIVE && g.instances[i].history == h.instances[i].history + [RESOLVED, ACTIVATING, ACTIVE]
    ensures forall d :: d in g.instances[i].dependencies <==> d in ps
    ensures forall x: nat :: x < |h.instances| && x != i ==> g.instances[x] == h.instances[x]
    ensures |g.registrations| == |h.registrations| && forall r :: 0 <= r < |h.registrations| ==>
      g.registrations[r] == if h.registrations[r].owner == i && h.registrations[r].staged
                            then h.registrations[r].(live := true, staged := false) else h.registrations[r]
  {
    AllNeeds(h, i, ps, |ps|);
    TokenThere(h, i);
    hide Comes, Books;
    var t := |h.activations|;
    var a := Meeting(h, i, ps, |ps|, Choosing(|ps|));
    var b := Enter(a, t);
    ComesOn(h, a, Enters(t), b);
    assert forall d :: d in Noted(ps, |ps|) <==> d in ps;
    g := Publish(b, t);
    ComesOn(h, b, Event.Publishes(t), g);
    assert h.instances[i].history + [RESOLVED] + [ACTIVATING] + [ACTIVE] == h.instances[i].history + [RESOLVED, ACTIVATING, ACTIVE];
  }

  lemma TokenThere(h: Host, i: nat)
    requires Books(h) && i < |h.instances| && h.instances[i].state == VERIFIED
    ensures h.instances[i].token
  {
    hide Path, EffectsOk;
    assert InstanceOk(h.instances[i]);
  }
}
