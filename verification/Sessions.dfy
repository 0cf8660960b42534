/** From calls to runs: whatever is asked of a scheduler, in whatever order, what happens
    is a run in the sense of Runs. */
module Sessions {
  import opened Core
  import opened Contexts
  import opened Turns
  import opened Brokers
  import opened Runs

  /** A call with its arguments; the outside world's answers come with it. */
  datatype Command =
    | DoOpen
    | DoFinish(c: nat, out: Outcome, env: Env)
    | DoAdmit(i: nat, q: Request, env: Env, later: Env)
    | DoOffer(i: nat, c: nat, nonce: nat, env: Env)
    | DoAcknowledge(i: nat, sameSession: bool, id: ContextId, nonce: nat, env: Env)
    | DoFail(i: nat, code: ErrorCode, env: Env)
    | DoReap(i: nat, env: Env)
    | DoLend(i: nat, bytes: int, control: bool)
    | DoReturn(i: nat, lease: nat)

  /** Nobody can name a context or a session that does not exist, have work done for a
      caller that was not handed its context, or return a lease that is a record's. */
  predicate Possible(ctxs: seq<Context>, scheds: seq<Sched>, k: Command) {
    match k
    case DoOpen => true
    case DoFinish(c, _, _) => c < |ctxs|
    case DoAdmit(i, q, _, _) => i < |scheds| && (q.parent.Some? ==> q.parent.value < |ctxs| && ctxs[q.parent.value].resolved)
    case DoOffer(i, c, _, _) => i < |scheds| && c < |ctxs|
    case DoAcknowledge(i, _, _, _, _) => i < |scheds|
    case DoFail(i, _, _) => i < |scheds|
    case DoReap(i, _) => i < |scheds|
    case DoLend(i, _, _) => i < |scheds|
    case DoReturn(i, lease) =>
      i < |scheds| && lease < |scheds[i].account.leases|
      && !exists r | r in scheds[i].records :: scheds[i].records[r].lease == lease
  }

  /** One call is one turn. */
  method Call(b: Broker, k: Command) returns (ghost op: Op)
    requires Inv(b.Snap()) && Possible(b.ctxs, b.scheds, k)
    modifies b
    ensures Turn(old(b.Snap()), op, b.Snap())
  {
    hide Inv, Step;
    match k
    case DoOpen =>
      var i := b.Open();
      op := OpenOp;
    case DoFinish(c, out, env) =>
      b.Finish(c, out, env);
      op := FinishOp(c, out, env);
    case DoAdmit(i, q, env, later) =>
      var r := b.Admit(i, q, env, later);
      op := AdmitOp(i, q, env, later, r);
    case DoOffer(i, c, nonce, env) =>
      var packet := b.Offer(i, c, nonce, env);
      op := OfferOp(i, c, nonce, env, packet);
    case DoAcknowledge(i, same, id, nonce, env) =>
      var got := b.Acknowledge(i, same, id, nonce, env);
      op := AckOp(i, same, id, nonce, env, got);
    case DoFail(i, code, env) =>
      b.Fail(i, code, env);
      op := FailOp(i, code, env);
    case DoReap(i, env) =>
      b.Reaped(i, env);
      op := ReapOp(i, env);
    case DoLend(i, bytes, control) =>
      var r := b.Lend(i, bytes, control);
      op := LendOp(i, bytes, control);
    case DoReturn(i, lease) =>
      b.Return(i, lease);
      op := ReturnOp(i, lease);
  }

  lemma RunGrows(ws: seq<World>, ops: seq<Op>, op: Op, w: World)
    requires Run(ws, ops) && Turn(ws[|ops|], op, w)
    ensures Run(ws + [w], ops + [op])
  {
    hide Turn;
    forall k: nat | k < |ops| + 1
      ensures Turn((ws + [w])[k], (ops + [op])[k], (ws + [w])[k + 1])
    {
      if k < |ops| {
        assert Turn(ws[k], ops[k], ws[k + 1]);
      }
    }
  }

  /** Any list of calls on a new scheduler, those that are not possible left out, makes a
      run from the empty world: every law in Runs holds of it. */
  method Drive(commands: seq<Command>) returns (b: Broker, ghost ws: seq<World>, ghost ops: seq<Op>)
    ensures Run(ws, ops) && ws[0] == World([], []) && ws[|ops|] == b.Snap() && Inv(b.Snap())
  {
    hide Inv, Turn;
    b := new Broker();
    ws, ops := [b.Snap()], [];
    var n := 0;
    while n < |commands|
      invariant n <= |commands| && fresh(b)
      invariant Run(ws, ops) && ws[0] == World([], []) && ws[|ops|] == b.Snap() && Inv(b.Snap())
    {
      if Possible(b.ctxs, b.scheds, commands[n]) {
        ghost var op := Call(b, commands[n]);
        TurnEnds(ws[|ops|], op, b.Snap());
        RunGrows(ws, ops, op, b.Snap());
        ws, ops := ws + [b.Snap()], ops + [op];
      }
      n := n + 1;
    }
  }

  lemma TurnEnds(w: World, op: Op, v: World)
    requires Turn(w, op, v)
    ensures Inv(v)
  {
  }
}
