/** The state behind the admission scheduler: every work context ever created (by
    any session) and, per session, the records, queue, slot counters and account.
    A handle is an index, so creation order, the iteration order of a JavaScript
    Map or Set, and the numeric order of handles are all the same order. */
module Contexts {
  import opened Core
  import opened Budgets

  datatype Purpose = Invoke | Lifecycle | Event | ProviderTask

  datatype Slot = OrdinarySlot | NestedSlot | LifecycleSlot

  datatype Outcome = Complete | Failed(code: ErrorCode)

  /** One WorkContext. `resolved` says whether its admission promise was ever
      resolved with it, the only way code outside the scheduler gets hold of it. */
  datatype Context = Context(
    owner: nat,
    reservation: nat,
    purpose: Purpose,
    end: real,
    depth: nat,
    parent: Option<nat>,
    children: set<nat>,
    terminal: Option<Outcome>,
    endpoint: Option<nat>,
    resolved: bool)

  datatype Record = Record(slot: Option<Slot>, admitted: bool, offer: Option<nat>, lease: nat)

  datatype Sched = Sched(
    records: map<nat, Record>,
    queue: seq<nat>,
    ordinary: int,
    nested: int,
    lifecycle: int,
    counter: nat,
    offerCounter: nat,
    failed: bool,
    reaped: bool,
    account: Account)

  datatype World = World(ctxs: seq<Context>, scheds: seq<Sched>)

  /** What one synchronous turn sees of the outside: the clock, and the code each
      context's `authorize` closure throws, if it throws. */
  datatype Env = Env(now: real, denial: nat -> Option<ErrorCode>)

  /** A live child is not told that its parent completed but that it is cancelled. */
  function Cascade(out: Outcome): Outcome {
    if out.Complete? then Failed(CANCELLED) else out
  }

  predicate Live(w: World, h: nat) {
    h < |w.ctxs| && w.ctxs[h].terminal.None?
  }

  predicate Ended(w: World, h: nat) {
    h < |w.ctxs| && w.ctxs[h].terminal.Some?
  }

  /** assertLive: the code it throws, or None when the context and its whole
      ancestry are live, in time and authorized. */
  function Liveness(ctxs: seq<Context>, h: nat, env: Env): Option<ErrorCode>
    requires h < |ctxs|
    decreases h
  {
    var c := ctxs[h];
    if c.terminal.Some? then
      Some(if c.terminal.value.Complete? then FAILED_PRECONDITION else c.terminal.value.code)
    else if c.end <= env.now then Some(DEADLINE_EXCEEDED)
    else
      var up := if c.parent.Some? && c.parent.value < h then Liveness(ctxs, c.parent.value, env) else None;
      if up.Some? then up else env.denial(h)
  }

  /** What assertLive says about a live root: its own deadline and its own authority. */
  function RootFailure(w: World, h: nat, env: Env): Option<ErrorCode>
    requires h < |w.ctxs|
  {
    if w.ctxs[h].end <= env.now then Some(DEADLINE_EXCEEDED) else env.denial(h)
  }

  /** h is top or a descendant of top. */
  ghost predicate Under(ctxs: seq<Context>, top: nat, h: nat)
    decreases h
  {
    h < |ctxs| && (h == top || (ctxs[h].parent.Some? && ctxs[h].parent.value < h && Under(ctxs, top, ctxs[h].parent.value)))
  }

  // ---------------------------------------------------------------- invariants

  ghost predicate ShapeAt(w: World, h: nat)
    requires h < |w.ctxs|
  {
    var c := w.ctxs[h];
    && c.owner < |w.scheds|
    && 1 <= c.depth <= 8
    && match c.parent
       case None => c.depth == 1
       case Some(p) =>
         && p < h
         && w.ctxs[p].resolved
         && c.depth == w.ctxs[p].depth + 1
         && c.end <= w.ctxs[p].end
  }

  ghost predicate Shape(w: World) {
    forall h: nat :: h < |w.ctxs| ==> ShapeAt(w, h)
  }

  /** The causal tree while the contexts in P have been marked terminal but have
      not yet left their parent's `children` (the outer `finish` frames). */
  ghost predicate TreeOk(w: World, P: set<nat>) {
    && (forall x :: x in P ==> Ended(w, x))
    && (forall h: nat :: Live(w, h) && w.ctxs[h].parent.Some? ==>
          Live(w, w.ctxs[h].parent.value) || w.ctxs[h].parent.value in P)
    && (forall p: nat, c: nat {:trigger c in w.ctxs[p].children} :: p < |w.ctxs| ==>
          (c in w.ctxs[p].children <==>
             c < |w.ctxs| && w.ctxs[c].parent == Some(p) && (Live(w, c) || c in P)))
  }

  ghost function Holders(records: map<nat, Record>, slot: Slot): set<nat> {
    set r | r in records && records[r].slot == Some(slot)
  }

  ghost predicate HoldsLease(records: map<nat, Record>, id: nat) {
    exists r :: r in records && records[r].lease == id
  }

  /** The part of the session invariant that speaks about one record. */
  ghost predicate RecordOk(w: World, i: nat, Q: set<nat>, r: nat)
    requires i < |w.scheds| && r in w.scheds[i].records
  {
    var s := w.scheds[i];
    var rec := s.records[r];
    && r < |w.ctxs|
    && w.ctxs[r].owner == i
    && (rec.admitted <==> rec.slot.Some?)
    && (rec.admitted <==> w.ctxs[r].resolved)
    && (rec.offer.Some? ==> rec.admitted && w.ctxs[r].endpoint.Some?)
    && (rec.slot == Some(LifecycleSlot) ==> w.ctxs[r].purpose == Lifecycle)
    && (rec.slot.Some? && w.ctxs[r].purpose == Lifecycle ==> rec.slot == Some(LifecycleSlot))
    && (Ended(w, r) ==> r in Q || rec.offer.Some? || s.failed)
    && (!rec.admitted ==> r in s.queue || (r in Q && !s.failed))
    && rec.lease < |s.account.leases|
    && !s.account.leases[rec.lease].released
    && (s.account.leases[rec.lease].control <==> w.ctxs[r].purpose == Lifecycle)
  }

  ghost predicate QueueOk(w: World, i: nat)
    requires i < |w.scheds|
  {
    var s := w.scheds[i];
    && (forall k: nat :: k < |s.queue| ==>
          && s.queue[k] in s.records
          && !s.records[s.queue[k]].admitted
          && s.queue[k] < |w.ctxs|
          && w.ctxs[s.queue[k]].parent.None?
          && w.ctxs[s.queue[k]].purpose != Lifecycle)
    && (forall j: nat, k: nat :: j < k < |s.queue| ==> s.queue[j] < s.queue[k])
    && (forall r, k: nat :: r in Holders(s.records, OrdinarySlot) && k < |s.queue| ==> r < s.queue[k])
  }

  ghost predicate CountsOk(s: Sched) {
    && s.ordinary == |Holders(s.records, OrdinarySlot)| <= 4
    && s.nested == |Holders(s.records, NestedSlot)| <= 4
    && s.lifecycle == |Holders(s.records, LifecycleSlot)| <= 1
  }

  ghost predicate LeasesOk(s: Sched) {
    && Balanced(s.account)
    && (forall a, b :: a in s.records && b in s.records && a != b ==> s.records[a].lease != s.records[b].lease)
  }

  ghost predicate IdsOk(w: World, i: nat)
    requires i < |w.scheds|
  {
    && (forall h: nat :: h < |w.ctxs| && w.ctxs[h].owner == i ==>
          && 1 <= w.ctxs[h].reservation <= w.scheds[i].counter
          && (w.ctxs[h].endpoint.Some? ==> 1 <= w.ctxs[h].endpoint.value <= w.scheds[i].offerCounter))
    && (forall g: nat, h: nat :: g < h < |w.ctxs| && w.ctxs[g].owner == i && w.ctxs[h].owner == i ==>
          && w.ctxs[g].reservation != w.ctxs[h].reservation
          && (w.ctxs[g].endpoint.Some? ==> w.ctxs[g].endpoint != w.ctxs[h].endpoint))
  }

  /** Session i, while the records of the contexts in Q are in transit: marked
      terminal but not yet released, or taken from the queue but not yet started. */
  ghost predicate SchedOk(w: World, i: nat, Q: set<nat>)
    requires i < |w.scheds|
  {
    && (forall r :: r in w.scheds[i].records ==> RecordOk(w, i, Q, r))
    && (forall h: nat :: Live(w, h) && w.ctxs[h].owner == i ==> h in w.scheds[i].records)
    && QueueOk(w, i)
    && CountsOk(w.scheds[i])
    && LeasesOk(w.scheds[i])
    && IdsOk(w, i)
    && (w.scheds[i].reaped ==> w.scheds[i].failed)
  }

  ghost predicate SchedsOk(w: World, Q: set<nat>) {
    forall i: nat :: i < |w.scheds| ==> SchedOk(w, i, Q)
  }

  ghost predicate Good(w: World, P: set<nat>, Q: set<nat>) {
    Shape(w) && TreeOk(w, P) && SchedsOk(w, Q)
  }

  /** A free ordinary slot is never left idle while a root waits. */
  predicate NoLost(s: Sched) {
    !s.failed && s.queue != [] ==> s.ordinary == 4
  }

  /** What holds between two turns of the event loop. */
  ghost predicate Inv(w: World) {
    && Good(w, {}, {})
    && (forall i: nat :: i < |w.scheds| ==> NoLost(w.scheds[i]))
    && (forall h: nat :: Live(w, h) && w.ctxs[h].owner < |w.scheds| ==> !w.scheds[w.ctxs[h].owner].failed)
    && (forall i: nat :: i < |w.scheds| && w.scheds[i].reaped ==> w.scheds[i].records == map[])
  }

  // ------------------------------------------------------- elementary updates

  function SetTerminal(w: World, c: nat, out: Outcome): World
    requires c < |w.ctxs|
  {
    w.(ctxs := w.ctxs[c := w.ctxs[c].(terminal := Some(out))])
  }

  /** `this.parent?.children.delete(this)`. */
  function Unlink(w: World, c: nat): World
    requires c < |w.ctxs| && (w.ctxs[c].parent.Some? ==> w.ctxs[c].parent.value < |w.ctxs|)
  {
    match w.ctxs[c].parent
    case None => w
    case Some(p) => w.(ctxs := w.ctxs[p := w.ctxs[p].(children := w.ctxs[p].children - {c})])
  }

  function Without(q: seq<nat>, c: nat): seq<nat> {
    if q == [] then [] else (if q[0] == c then [] else [q[0]]) + Without(q[1..], c)
  }

  function Vacate(s: Sched, slot: Option<Slot>): Sched {
    match slot
    case None => s
    case Some(OrdinarySlot) => s.(ordinary := s.ordinary - 1)
    case Some(NestedSlot) => s.(nested := s.nested - 1)
    case Some(LifecycleSlot) => s.(lifecycle := s.lifecycle - 1)
  }

  function Occupy(s: Sched, slot: Slot): Sched {
    match slot
    case OrdinarySlot => s.(ordinary := s.ordinary + 1)
    case NestedSlot => s.(nested := s.nested + 1)
    case LifecycleSlot => s.(lifecycle := s.lifecycle + 1)
  }

  function DropRecord(s: Sched, c: nat): Sched
    requires c in s.records && s.records[c].lease < |s.account.leases|
  {
    Vacate(s, s.records[c].slot).(
      records := s.records - {c},
      account := Release(s.account, s.records[c].lease),
      queue := Without(s.queue, c))
  }

  function GrantSlot(s: Sched, r: nat, slot: Slot): Sched
    requires r in s.records
  {
    Occupy(s, slot).(records := s.records[r := s.records[r].(slot := Some(slot), admitted := true)])
  }

  function WithSched(w: World, i: nat, s: Sched): World
    requires i < |w.scheds|
  {
    w.(scheds := w.scheds[i := s])
  }

  /** record.slot = slot; counter++; admitted = true; resolve(context). */
  function Admitted(w: World, r: nat, slot: Slot): World
    requires r < |w.ctxs| && w.ctxs[r].owner < |w.scheds| && r in w.scheds[w.ctxs[r].owner].records
  {
    var i := w.ctxs[r].owner;
    World(w.ctxs[r := w.ctxs[r].(resolved := true)], w.scheds[i := GrantSlot(w.scheds[i], r, slot)])
  }

  // ------------------------------------------------------ how a turn may evolve

  ghost predicate CtxKept(c: Context, d: Context) {
    && d == c.(children := d.children, terminal := d.terminal, resolved := d.resolved)
    && d.children <= c.children
    && (c.terminal.Some? ==> d.terminal == c.terminal)
    && (c.resolved ==> d.resolved)
  }

  /** The record either is untouched or is a queued root that got an ordinary slot
      because its own liveness check passed. */
  ghost predicate RecordKept(w: World, i: nat, r: nat, rec: Record, env: Env)
    requires i < |w.scheds|
  {
    && r in w.scheds[i].records
    && (rec == w.scheds[i].records[r]
        || (&& r in w.scheds[i].queue
            && r < |w.ctxs|
            && RootFailure(w, r, env).None?
            && rec == w.scheds[i].records[r].(slot := Some(OrdinarySlot), admitted := true)))
  }

  ghost predicate LeasesKept(s: Sched, t: Sched) {
    && |t.account.leases| == |s.account.leases|
    && (forall k: nat :: k < |s.account.leases| ==>
          || t.account.leases[k] == s.account.leases[k]
          || (HoldsLease(s.records, k) && t.account.leases[k] == s.account.leases[k].(released := true)))
    && (forall r :: r in s.records && r !in t.records && s.records[r].lease < |t.account.leases| ==>
          t.account.leases[s.records[r].lease].released)
  }

  ghost predicate SchedKept(w: World, v: World, i: nat, env: Env)
    requires i < |w.scheds| && i < |v.scheds|
  {
    var s, t := w.scheds[i], v.scheds[i];
    && t.failed == s.failed && t.reaped == s.reaped
    && t.counter == s.counter && t.offerCounter == s.offerCounter
    && (s.failed && !s.reaped ==> t == s)
    && (forall r :: r in t.records ==> RecordKept(w, i, r, t.records[r], env))
    && (forall r :: r in s.records && r !in t.records ==> Ended(v, r) && s.records[r].offer.None?)
    && |t.queue| <= |s.queue|
    && (forall r :: r in t.queue ==> r in s.queue)
    && LeasesKept(s, t)
  }

  /** Everything a re-entrant drain may do to the world. Reflexive and transitive. */
  ghost predicate Evolves(w: World, v: World, env: Env) {
    && |v.ctxs| == |w.ctxs|
    && |v.scheds| == |w.scheds|
    && (forall h: nat :: h < |w.ctxs| ==> CtxKept(w.ctxs[h], v.ctxs[h]))
    && (forall i: nat :: i < |w.scheds| ==> SchedKept(w, v, i, env))
  }

  /** h's turn in the queue came: everybody still waiting is younger, and the drain
      had a slot to hand out when it reached h (one is still free, or a root younger
      than h has got it). */
  ghost predicate InTurn(w: World, v: World, h: nat)
    requires h < |w.ctxs|
  {
    var i := w.ctxs[h].owner;
    && i < |w.scheds| && i < |v.scheds|
    && (forall a :: a in v.scheds[i].queue ==> h < a)
    && (v.scheds[i].ordinary < 4
        || exists b :: b in w.scheds[i].queue && h < b < |v.ctxs| && v.ctxs[b].resolved)
  }

  ghost predicate WaitingRootFails(w: World, v: World, h: nat, o: Outcome, env: Env)
    requires h < |w.ctxs|
  {
    && w.ctxs[h].parent.None?
    && !w.ctxs[h].resolved
    && RootFailure(w, h, env).Some?
    && o == Failed(RootFailure(w, h, env).value)
    && InTurn(w, v, h)
  }

  /** `finish(top, out)` may end h with outcome o: h lies in the subtree of top, or h
      is a queued root whose turn came and whose own liveness check failed. */
  ghost predicate MayEnd(w: World, v: World, h: nat, o: Outcome, env: Env, top: Option<nat>, out: Outcome)
    requires h < |w.ctxs|
  {
    || (&& top.Some?
        && Under(w.ctxs, top.value, h)
        && o == if h == top.value then out else Cascade(out))
    || WaitingRootFails(w, v, h, o, env)
  }

  ghost predicate EndsOnly(w: World, v: World, env: Env, top: Option<nat>, out: Outcome) {
    forall h: nat :: Live(w, h) && Ended(v, h) ==> MayEnd(w, v, h, v.ctxs[h].terminal.value, env, top, out)
  }

  /** The facts about the queues and counters that composing two evolutions needs. */
  ghost predicate Sane(w: World) {
    forall i: nat :: i < |w.scheds| ==>
      && CountsOk(w.scheds[i])
      && (forall r :: r in Holders(w.scheds[i].records, OrdinarySlot) ==> r < |w.ctxs| && w.ctxs[r].resolved)
  }

  /** A drain never leaves a slot idle that was not idle before. */
  ghost predicate KeepsNoLost(w: World, v: World) {
    |v.scheds| == |w.scheds| && forall i: nat :: i < |w.scheds| && NoLost(w.scheds[i]) ==> NoLost(v.scheds[i])
  }

  /** The termination measure of the mutual recursion. */
  ghost function LiveCount(ctxs: seq<Context>): nat {
    if ctxs == [] then 0
    else LiveCount(ctxs[..|ctxs| - 1]) + if ctxs[|ctxs| - 1].terminal.None? then 1 else 0
  }
}
