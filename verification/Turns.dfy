/** What each public call of the scheduler may do to the world: one predicate per
    call, over the world before and the world after. Broker's methods are proved
    against these; Runs.dfy proves what they imply over whole runs. */
module Turns {
  import opened Core
  import opened Budgets
  import opened Contexts
  import opened ContextLemmas

  datatype Request = Request(purpose: Purpose, requestedMs: int, bytes: int, parent: Option<nat>, aborted: bool)

  /** What becomes of the promise `admit` returns. */
  datatype Admission =
    | Rejected(code: ErrorCode)
    | Granted(h: nat, slot: Slot)
    | Waiting(h: nat)
    | Refused(h: nat, why: ErrorCode)

  /** `context.id`: the reservation id until an endpoint id is bound. */
  datatype ContextId = Reservation(n: nat) | Endpoint(n: nat)

  function IdOf(c: Context): ContextId {
    if c.endpoint.Some? then Endpoint(c.endpoint.value) else Reservation(c.reservation)
  }

  function Min(a: real, b: real): real {
    if a <= b then a else b
  }

  /** The deadline `admit` computes. */
  function Deadline(w: World, q: Request, now: real): real
    requires q.parent.Some? ==> q.parent.value < |w.ctxs|
  {
    var cap := if q.purpose == Event then 2000 else 30000;
    var own := now + (if q.requestedMs <= cap then q.requestedMs else cap) as real;
    if q.parent.Some? then Min(own, w.ctxs[q.parent.value].end) else own
  }

  function DepthOf(w: World, q: Request): nat
    requires q.parent.Some? ==> q.parent.value < |w.ctxs|
  {
    if q.parent.Some? then w.ctxs[q.parent.value].depth + 1 else 1
  }

  /** `slot`: lifecycle work has its own slot, nested work prefers a nested slot, and
      everything else takes an ordinary one. */
  function FreeSlot(s: Sched, purpose: Purpose, nested: bool): Option<Slot> {
    if purpose == Lifecycle then if s.lifecycle < 1 then Some(LifecycleSlot) else None
    else if nested && s.nested < 4 then Some(NestedSlot)
    else if s.ordinary < 4 then Some(OrdinarySlot) else None
  }

  /** The code with which `admit` rejects before it has created anything. */
  function AdmitError(w: World, i: nat, q: Request, env: Env): Option<ErrorCode>
    requires i < |w.scheds| && (q.parent.Some? ==> q.parent.value < |w.ctxs|)
  {
    var s := w.scheds[i];
    var slot := FreeSlot(s, q.purpose, q.parent.Some?);
    if s.failed then Some(UNAVAILABLE)
    else if !(0 < q.requestedMs <= 30000) then Some(INVALID_ARGUMENT)
    else if env.denial(|w.ctxs|).Some? then env.denial(|w.ctxs|)
    else if q.parent.Some? && Liveness(w.ctxs, q.parent.value, env).Some? then Liveness(w.ctxs, q.parent.value, env)
    else if q.aborted then Some(CANCELLED)
    else if DepthOf(w, q) > 8 || s.counter >= MAX_SAFE then Some(RESOURCE_EXHAUSTED)
    else if Deadline(w, q, env.now) <= env.now then Some(DEADLINE_EXCEEDED)
    else if slot.None? && (q.parent.Some? || q.purpose == Lifecycle || |s.queue| >= 64) then Some(RESOURCE_EXHAUSTED)
    else match Reserve(s.account, q.bytes, q.purpose == Lifecycle)
      case Err(code) => Some(code)
      case Ok(_) => None
  }

  /** The world once the context and its record exist, before it is started or queued. */
  function Enrolled(w: World, i: nat, q: Request, now: real): World
    requires i < |w.scheds| && (q.parent.Some? ==> q.parent.value < |w.ctxs|)
    requires Reserve(w.scheds[i].account, q.bytes, q.purpose == Lifecycle).Ok?
  {
    var s, h := w.scheds[i], |w.ctxs|;
    var account := Reserve(s.account, q.bytes, q.purpose == Lifecycle).value;
    var c := Context(i, s.counter + 1, q.purpose, Deadline(w, q, now), DepthOf(w, q), q.parent, {}, None, None, false);
    var linked :=
      if q.parent.Some?
      then w.ctxs[q.parent.value := w.ctxs[q.parent.value].(children := w.ctxs[q.parent.value].children + {h})]
      else w.ctxs;
    World(
      linked + [c],
      w.scheds[i := s.(
        counter := s.counter + 1,
        account := account,
        records := s.records[h := Record(None, false, None, |s.account.leases|)])])
  }

  function Queued(w: World, i: nat, h: nat): World
    requires i < |w.scheds|
  {
    WithSched(w, i, w.scheds[i].(queue := w.scheds[i].queue + [h]))
  }

  /** Context h ended only because of `finish(c, out)` calls with c in tops. */
  ghost predicate EndedBy(w: World, v: World, env: Env, tops: set<nat>, out: Outcome) {
    forall h: nat :: Live(w, h) && Ended(v, h) ==>
      var o := v.ctxs[h].terminal.value;
      || (o == out && exists t :: t in tops && Under(w.ctxs, t, h))
      || WaitingRootFails(w, v, h, o, env)
  }

  datatype Op =
    | FinishOp(c: nat, out: Outcome, env: Env)
    | AdmitOp(i: nat, q: Request, env: Env, later: Env, r: Admission)
    | OfferOp(i: nat, c: nat, nonce: nat, env: Env, packet: Result<(nat, int)>)
    | AckOp(i: nat, sameSession: bool, id: ContextId, nonce: nat, env: Env, got: Result<Option<nat>>)
    | FailOp(i: nat, code: ErrorCode, env: Env)
    | ReapOp(i: nat, env: Env)
    | LendOp(i: nat, bytes: int, control: bool)
    | ReturnOp(i: nat, lease: nat)
    | OpenOp

  ghost predicate FinishTurn(w: World, v: World, c: nat, out: Outcome, env: Env) {
    && c < |w.ctxs|
    && Evolves(w, v, env)
    && EndsOnly(w, v, env, Some(c), out)
    && Ended(v, c)
    && (Live(w, c) ==> v.ctxs[c].terminal == Some(out))
  }

  ghost predicate AdmitTurn(w: World, v: World, i: nat, q: Request, env: Env, later: Env, r: Admission) {
    && i < |w.scheds|
    && (q.parent.Some? ==> q.parent.value < |w.ctxs| && w.ctxs[q.parent.value].resolved)
    && match AdmitError(w, i, q, env)
       case Some(code) => r == Rejected(code) && v == w
       case None =>
         var h, e := |w.ctxs|, Enrolled(w, i, q, env.now);
         match FreeSlot(w.scheds[i], q.purpose, q.parent.Some?)
         case None => r == Waiting(h) && v == Queued(e, i, h)
         case Some(slot) =>
           match Liveness(e.ctxs, h, later)
           case None => r == Granted(h, slot) && v == Admitted(e, h, slot)
           case Some(why) =>
             && r == Refused(h, why)
             && Evolves(e, v, later)
             && EndsOnly(e, v, later, Some(h), Failed(why))
             && Ended(v, h)
  }

  /** remainingMs: max(0, ceil(end - now)). */
  function Remaining(end: real, now: real): int {
    var ceiling := -((now - end).Floor);
    if ceiling > 0 then ceiling else 0
  }

  ghost predicate OfferTurn(w: World, v: World, i: nat, c: nat, nonce: nat, env: Env, packet: Result<(nat, int)>) {
    && i < |w.scheds| && c < |w.ctxs|
    && var s := w.scheds[i];
    if c !in s.records || !s.records[c].admitted || s.records[c].offer.Some? then
      packet == Err(FAILED_PRECONDITION) && v == w
    else if Liveness(w.ctxs, c, env).Some? then
      packet == Err(Liveness(w.ctxs, c, env).value) && v == w
    else if s.offerCounter >= MAX_SAFE then
      packet == Err(RESOURCE_EXHAUSTED) && v == w
    else if w.ctxs[c].endpoint.Some? then
      packet == Err(FAILED_PRECONDITION) && v == WithSched(w, i, s.(offerCounter := s.offerCounter + 1))
    else
      && packet == Ok((s.offerCounter + 1, Remaining(w.ctxs[c].end, env.now)))
      && v == Offered(w, i, c, nonce)
  }

  function Offered(w: World, i: nat, c: nat, nonce: nat): World
    requires i < |w.scheds| && c < |w.ctxs| && c in w.scheds[i].records
  {
    var s := w.scheds[i];
    World(
      w.ctxs[c := w.ctxs[c].(endpoint := Some(s.offerCounter + 1))],
      w.scheds[i := s.(offerCounter := s.offerCounter + 1,
                       records := s.records[c := s.records[c].(offer := Some(nonce))])])
  }

  /** `delete record.offer`. */
  function Unoffered(w: World, i: nat, c: nat): World
    requires i < |w.scheds| && c in w.scheds[i].records
  {
    var s := w.scheds[i];
    WithSched(w, i, s.(records := s.records[c := s.records[c].(offer := None)]))
  }

  ghost predicate Answers(w: World, i: nat, id: ContextId, nonce: nat, c: nat) {
    && i < |w.scheds|
    && c in w.scheds[i].records
    && c < |w.ctxs|
    && IdOf(w.ctxs[c]) == id
    && w.scheds[i].records[c].offer == Some(nonce)
  }

  ghost predicate AckTurn(w: World, v: World, i: nat, sameSession: bool, id: ContextId, nonce: nat, env: Env, got: Result<Option<nat>>) {
    && i < |w.scheds|
    && ((&& got == Err(UNAUTHENTICATED) && v == w
         && (w.scheds[i].failed || !sameSession || forall c :: !Answers(w, i, id, nonce, c)))
        || (!w.scheds[i].failed && sameSession && exists c :: AckAnswered(w, v, i, id, nonce, env, got, c)))
  }

  ghost predicate AckAnswered(w: World, v: World, i: nat, id: ContextId, nonce: nat, env: Env, got: Result<Option<nat>>, c: nat) {
    && Answers(w, i, id, nonce, c)
    && var u := Unoffered(w, i, c);
    if Ended(w, c) then
      && got == Ok(None)
      && Evolves(Dropped(u, c), v, env)
      && EndsOnly(Dropped(u, c), v, env, None, Complete)
    else match Liveness(w.ctxs, c, env)
      case None => got == Ok(Some(c)) && v == u
      case Some(why) => got == Ok(None) && FinishTurn(u, v, c, Failed(why), env)
  }

  ghost predicate FailTurn(w: World, v: World, i: nat, code: ErrorCode, env: Env) {
    && i < |w.scheds|
    && if w.scheds[i].failed then v == w
       else
         var u := WithSched(w, i, w.scheds[i].(failed := true));
         && Evolves(u, v, env)
         && EndedBy(u, v, env, w.scheds[i].records.Keys, Failed(code))
         && (forall r :: r in w.scheds[i].records ==> Ended(v, r))
  }

  ghost predicate Emptied(s: Sched, t: Sched) {
    && t.records == map[] && t.queue == []
    && t.ordinary == 0 && t.nested == 0 && t.lifecycle == 0
    && t.failed && t.reaped
    && t.counter == s.counter && t.offerCounter == s.offerCounter
    && LeasesKept(s, t)
  }

  ghost predicate ReapTurn(w: World, v: World, i: nat, env: Env) {
    && i < |w.scheds|
    && |v.ctxs| == |w.ctxs| && |v.scheds| == |w.scheds|
    && (forall h: nat :: h < |w.ctxs| ==> CtxKept(w.ctxs[h], v.ctxs[h]))
    && (forall j: nat :: j < |w.scheds| && j != i ==> SchedKept(w, v, j, env))
    && Emptied(w.scheds[i], v.scheds[i])
    && EndedBy(w, v, env, w.scheds[i].records.Keys, Failed(UNAVAILABLE))
  }

  ghost predicate Step(w: World, op: Op, v: World) {
    match op
    case FinishOp(c, out, env) => FinishTurn(w, v, c, out, env)
    case AdmitOp(i, q, env, later, r) => AdmitTurn(w, v, i, q, env, later, r)
    case OfferOp(i, c, nonce, env, packet) => OfferTurn(w, v, i, c, nonce, env, packet)
    case AckOp(i, same, id, nonce, env, got) => AckTurn(w, v, i, same, id, nonce, env, got)
    case FailOp(i, code, env) => FailTurn(w, v, i, code, env)
    case ReapOp(i, env) => ReapTurn(w, v, i, env)
    case LendOp(i, bytes, control) =>
      && i < |w.scheds|
      && (match Reserve(w.scheds[i].account, bytes, control)
          case Err(_) => v == w
          case Ok(a) => v == WithSched(w, i, w.scheds[i].(account := a)))
    case ReturnOp(i, lease) =>
      && i < |w.scheds|
      && lease < |w.scheds[i].account.leases|
      && !HoldsLease(w.scheds[i].records, lease)
      && v == WithSched(w, i, w.scheds[i].(account := Release(w.scheds[i].account, lease)))
    case OpenOp =>
      v == World(w.ctxs, w.scheds + [Sched(map[], [], 0, 0, 0, 0, 0, false, false, EMPTY_ACCOUNT)])
  }
}
