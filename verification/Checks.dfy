/** What `assertLive` comes to: a condition on every context from the one asked about up
    to its root, and the code of the check that fails first. */
module Checks {
  import opened Core
  import opened Contexts

  ghost predicate ParentsFirst(ctxs: seq<Context>) {
    forall h: nat :: h < |ctxs| && ctxs[h].parent.Some? ==> ctxs[h].parent.value < h
  }

  /** What can be wrong with a context apart from its authority. */
  predicate Over(c: Context, now: real) {
    c.terminal.Some? || c.end <= now
  }

  /** The context and everything above it is live, in time and authorized. */
  ghost predicate Alive(ctxs: seq<Context>, h: nat, env: Env) {
    forall a: nat :: a < |ctxs| && Under(ctxs, a, h) ==> ctxs[a].terminal.None? && env.now < ctxs[a].end && env.denial(a).None?
  }

  /** Above h is h and what is above its parent. */
  lemma UnderStep(ctxs: seq<Context>, a: nat, h: nat)
    requires ParentsFirst(ctxs) && h < |ctxs|
    ensures Under(ctxs, a, h) <==> a == h || (ctxs[h].parent.Some? && Under(ctxs, a, ctxs[h].parent.value))
    ensures Under(ctxs, a, h) ==> a <= h
  {
    if Under(ctxs, a, h) {
      UnderOlder(ctxs, a, h);
    }
  }

  lemma {:induction false} UnderOlder(ctxs: seq<Context>, a: nat, h: nat)
    requires Under(ctxs, a, h)
    ensures a <= h
    decreases h
  {
    if a != h {
      UnderOlder(ctxs, a, ctxs[h].parent.value);
    }
  }

  /** `assertLive` passes exactly when nothing is wrong all the way up. */
  lemma {:induction false} LivePasses(ctxs: seq<Context>, h: nat, env: Env)
    requires ParentsFirst(ctxs) && h < |ctxs|
    ensures Liveness(ctxs, h, env).None? <==> Alive(ctxs, h, env)
    decreases h
  {
    hide Under;
    forall a: nat
      ensures Under(ctxs, a, h) <==> a == h || (ctxs[h].parent.Some? && Under(ctxs, a, ctxs[h].parent.value))
    {
      UnderStep(ctxs, a, h);
    }
    assert Under(ctxs, h, h);
    if ctxs[h].parent.Some? {
      LivePasses(ctxs, ctxs[h].parent.value, env);
    }
  }

  /** A context that is over counts before anybody's authority, the nearest one first,
      and its own code before its deadline; a completed one is a FAILED_PRECONDITION. */
  lemma {:induction false} NearestOverDecides(ctxs: seq<Context>, h: nat, env: Env, a: nat)
    requires ParentsFirst(ctxs) && a < |ctxs| && h < |ctxs| && Under(ctxs, a, h) && Over(ctxs[a], env.now)
    requires forall b: nat :: b < |ctxs| && Under(ctxs, b, h) && a < b ==> !Over(ctxs[b], env.now)
    ensures Liveness(ctxs, h, env) ==
      match ctxs[a].terminal
      case Some(Complete) => Some(FAILED_PRECONDITION)
      case Some(Failed(code)) => Some(code)
      case None => Some(DEADLINE_EXCEEDED)
    decreases h
  {
    hide Under;
    UnderStep(ctxs, a, h);
    UnderStep(ctxs, h, h);
    if a != h {
      var p := ctxs[h].parent.value;
      forall b: nat | Under(ctxs, b, p)
        ensures Under(ctxs, b, h)
      {
        UnderStep(ctxs, b, h);
      }
      NearestOverDecides(ctxs, p, env, a);
    }
  }

  /** When nobody is over, the authority that is missing furthest up counts. */
  lemma {:induction false} FurthestDenialDecides(ctxs: seq<Context>, h: nat, env: Env, a: nat)
    requires ParentsFirst(ctxs) && h < |ctxs| && Under(ctxs, a, h) && env.denial(a).Some?
    requires forall b: nat :: b < |ctxs| && Under(ctxs, b, h) ==> !Over(ctxs[b], env.now)
    requires forall b: nat :: Under(ctxs, b, h) && b < a ==> env.denial(b).None?
    ensures Liveness(ctxs, h, env) == env.denial(a)
    decreases h
  {
    hide Under;
    UnderStep(ctxs, a, h);
    UnderStep(ctxs, h, h);
    if ctxs[h].parent.Some? {
      var p := ctxs[h].parent.value;
      forall b: nat | Under(ctxs, b, p)
        ensures Under(ctxs, b, h) && b < h
      {
        UnderStep(ctxs, b, h);
        UnderStep(ctxs, b, p);
      }
      if a == h {
        LivePasses(ctxs, p, env);
      } else {
        FurthestDenialDecides(ctxs, p, env, a);
      }
    }
  }

  lemma GoodShape(w: World, P: set<nat>, Q: set<nat>)
    requires Good(w, P, Q)
    ensures Shape(w)
  {
  }

  lemma ShapeOrders(w: World)
    requires Shape(w)
    ensures ParentsFirst(w.ctxs)
  {
    forall h: nat | h < |w.ctxs| && w.ctxs[h].parent.Some?
      ensures w.ctxs[h].parent.value < h
    {
      assert ShapeAt(w, h);
    }
  }

  /** The check on a world whose contexts hang together. */
  lemma LiveInWorld(w: World, h: nat, env: Env)
    requires Shape(w) && h < |w.ctxs|
    ensures Liveness(w.ctxs, h, env).None? <==> Alive(w.ctxs, h, env)
  {
    ShapeOrders(w);
    LivePasses(w.ctxs, h, env);
  }
}
