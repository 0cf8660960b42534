/** The idempotency ledger of a provider: which keyed calls run, which are answered from
    the record of an earlier run, and for how long. */
module Ledgers {
  import opened Core
  import opened Texts
  import opened Values
  import opened Printer
  import opened RoundTrip
  import opened Shrink
  import Codec

  const MAX_BYTES: nat := 1048576

  datatype Outcome = Success(value: Value) | Failure(code: ErrorCode)

  /** An object of the ledger; a run keeps its handle even after the map forgets it. */
  datatype Record = Record(key: Text, payload: Text, expires: real, outcome: Option<Outcome>)

  /** `maximum` records in the map at most. */
  datatype Ledger = Ledger(closed: bool, table: map<Text, nat>, records: seq<Record>, maximum: nat)

  /** What makes two calls the same. */
  datatype Call = Call(principal: Text, scope: Text, generation: int, capability: Text, operation: Text, key: Text)

  datatype Start =
    | Run(record: Option<nat>)
    | Replay(outcome: Outcome)
    | Refuse(code: ErrorCode)

  function CallValue(c: Call): Value {
    Arr([Str(c.principal), Str(c.scope), Num(c.generation), Str(c.capability), Str(c.operation), Str(c.key)])
  }

  ghost function KeyText(c: Call): Result<Text> {
    Canonical(CallValue(c), MAX_BYTES)
  }

  /** Different callers, scopes, generations, capabilities, operations or keys never
      share a record. */
  lemma KeysDoNotCollide(c: Call, d: Call)
    requires KeyText(c).Ok? && KeyText(c) == KeyText(d)
    ensures c == d
  {
    hide Canonical;
    CanonicalInjective(CallValue(c), CallValue(d), MAX_BYTES, MAX_BYTES);
    assert CallValue(c).items == CallValue(d).items;
    assert forall i :: 0 <= i < 6 ==> CallValue(c).items[i] == CallValue(d).items[i];
  }

  predicate Expired(r: Record, now: real) {
    r.outcome.Some? && r.expires <= now
  }

  function Prune(l: Ledger, now: real): map<Text, nat> {
    map k | k in l.table && !(l.table[k] < |l.records| && Expired(l.records[l.table[k]], now)) :: l.table[k]
  }

  /** The half of `unary` before the handler runs. A call without a key runs unrecorded. */
  ghost function Begin(l: Ledger, c: Option<Call>, body: Value, now: real): (Ledger, Start) {
    if l.closed then (l, Refuse(UNAVAILABLE))
    else if c.None? then (l, Run(None))
    else
      var p := l.(table := Prune(l, now));
      match KeyText(c.value)
      case Err(code) => (p, Refuse(code))
      case Ok(k) =>
        match Canonical(body, MAX_BYTES)
        case Err(code) => (p, Refuse(code))
        case Ok(digest) =>
          if k in p.table then (p, Answer(p, p.table[k], digest))
          else if |p.table| >= p.maximum then (p, Refuse(RESOURCE_EXHAUSTED))
          else
            var h := |p.records|;
            (p.(table := p.table[k := h], records := p.records + [Record(k, digest, 0.0, None)]), Run(Some(h)))
  }

  function Answer(l: Ledger, h: nat, digest: Text): Start {
    if h >= |l.records| || l.records[h].payload != digest || l.records[h].outcome.None? then Refuse(CONFLICT)
    else Replay(l.records[h].outcome.value)
  }

  /** What the handler's result comes to: only values the operation's output type
      admits are successes. */
  ghost function Judge(r: Result<Value>, output: Value -> bool): Outcome {
    match r
    case Err(code) => Failure(code)
    case Ok(v) =>
      match Detach(v, MAX_BYTES)
      case Err(_) => Failure(CONTRACT_MISMATCH)
      case Ok(own) => if output(own) then Success(own) else Failure(CONTRACT_MISMATCH)
  }

  /** The half of `unary` after the handler is done. */
  function Settle(l: Ledger, h: nat, outcome: Outcome, now: real, retention: real): Ledger
    requires h < |l.records|
  {
    l.(records := l.records[h := l.records[h].(outcome := Some(outcome), expires := now + retention)])
  }

  function Close(l: Ledger): Ledger {
    l.(closed := true, table := map[])
  }

  // ------------------------------------------------------------- what is kept

  predicate InFlight(l: Ledger, h: nat) {
    h < |l.records| && l.records[h].outcome.None?
  }

  ghost predicate TableOk(l: Ledger) {
    && (forall k :: k in l.table ==> l.table[k] < |l.records| && l.records[l.table[k]].key == k)
    && |l.table| <= l.maximum
    && (l.closed ==> l.table == map[])
  }

  ghost predicate FlightsOk(l: Ledger) {
    && (forall h: nat :: InFlight(l, h) && !l.closed ==> l.records[h].key in l.table && l.table[l.records[h].key] == h)
    && (forall h: nat, g: nat :: InFlight(l, h) && InFlight(l, g) && l.records[h].key == l.records[g].key ==> h == g)
  }

  ghost predicate LedgerOk(l: Ledger) {
    && TableOk(l)
    && FlightsOk(l)
    && (forall h: nat :: h < |l.records| ==> Repeatable(l.records[h].outcome))
  }

  /** A recorded value can be detached again for whoever repeats the call. */
  ghost predicate Repeatable(outcome: Option<Outcome>) {
    outcome.Some? && outcome.value.Success? ==> Detach(outcome.value.value, MAX_BYTES) == Ok(outcome.value.value)
  }

  datatype Event =
    | Began(call: Option<Call>, body: Value)
    | Settled(record: nat, result: Result<Value>, output: Value -> bool, retention: real)
    | Closed

  /** One step at time `now`; a run settles once. */
  ghost predicate Step(l: Ledger, e: Event, now: real, m: Ledger) {
    match e
    case Began(c, body) => m == Begin(l, c, body, now).0
    case Settled(h, r, output, retention) =>
      InFlight(l, h) && retention >= 0.0 && m == Settle(l, h, Judge(r, output), now, retention)
    case Closed => m == Close(l)
  }

  lemma PruneSmaller(l: Ledger, now: real)
    ensures |Prune(l, now)| <= |l.table|
  {
    CardinalityMono(Prune(l, now).Keys, l.table.Keys);
    assert |Prune(l, now).Keys| == |Prune(l, now)|;
  }

  lemma {:induction false} CardinalityMono<T>(a: set<T>, b: set<T>)
    requires a <= b
    ensures |a| <= |b|
  {
    assert b == a + (b - a);
  }

  lemma PruneKeeps(l: Ledger, now: real)
    requires LedgerOk(l)
    ensures LedgerOk(l.(table := Prune(l, now)))
  {
    hide Repeatable;
    PruneSmaller(l, now);
  }

  /** A new run for a key nobody holds. */
  function Added(l: Ledger, k: Text, digest: Text): Ledger {
    l.(table := l.table[k := |l.records|], records := l.records + [Record(k, digest, 0.0, None)])
  }

  lemma AddKeeps(l: Ledger, k: Text, digest: Text)
    requires LedgerOk(l) && !l.closed && k !in l.table && |l.table| < l.maximum
    ensures LedgerOk(Added(l, k, digest))
  {
    hide Repeatable, TableOk, FlightsOk;
    var m := Added(l, k, digest);
    assert Repeatable(None) by { NothingToRepeat(); }
    assert forall h: nat :: h < |l.records| ==> m.records[h] == l.records[h];
    AddTable(l, k, digest);
    AddFlight(l, k, digest);
  }

  lemma AddTable(l: Ledger, k: Text, digest: Text)
    requires TableOk(l) && !l.closed && k !in l.table && |l.table| < l.maximum
    ensures TableOk(Added(l, k, digest))
  {
    assert forall h: nat :: h < |l.records| ==> Added(l, k, digest).records[h] == l.records[h];
    TableGrows(l.table, k, |l.records|);
  }

  lemma AddFlight(l: Ledger, k: Text, digest: Text)
    requires TableOk(l) && FlightsOk(l) && !l.closed && k !in l.table
    ensures FlightsOk(Added(l, k, digest))
  {
    var m := Added(l, k, digest);
    assert forall h: nat :: InFlight(l, h) ==> l.records[h].key != k && m.records[h] == l.records[h];
    assert forall h: nat :: InFlight(m, h) ==> InFlight(l, h) || h == |l.records|;
  }

  lemma NothingToRepeat()
    ensures Repeatable(None)
  {
  }

  lemma TableGrows(table: map<Text, nat>, k: Text, h: nat)
    requires k !in table
    ensures |table[k := h]| == |table| + 1
  {
    assert table[k := h].Keys == table.Keys + {k};
    assert |table[k := h].Keys| == |table[k := h]|;
  }

  lemma SettleKeeps(l: Ledger, h: nat, r: Result<Value>, output: Value -> bool, now: real, retention: real)
    requires LedgerOk(l) && h < |l.records|
    ensures LedgerOk(Settle(l, h, Judge(r, output), now, retention))
  {
    hide Canonical, Detach;
    if r.Ok? {
      DetachIsIdentity(r.value, MAX_BYTES);
    }
    var m := Settle(l, h, Judge(r, output), now, retention);
    assert forall g: nat :: InFlight(m, g) ==> InFlight(l, g);
  }

  lemma CloseKeeps(l: Ledger)
    requires LedgerOk(l)
    ensures LedgerOk(Close(l))
  {
    hide Repeatable;
    assert forall h: nat :: InFlight(Close(l), h) <==> InFlight(l, h);
  }

  lemma StepKeeps(l: Ledger, e: Event, now: real, m: Ledger)
    requires LedgerOk(l) && Step(l, e, now, m)
    ensures LedgerOk(m) && m.maximum == l.maximum
    ensures l.closed ==> m.closed
    ensures |l.records| <= |m.records|
  {
    hide LedgerOk, Canonical, KeyText, Judge, Prune;
    match e
    case Began(c, body) =>
      if !l.closed && c.Some? {
        PruneKeeps(l, now);
        var p := l.(table := Prune(l, now));
        if Begin(l, c, body, now).1.Run? {
          AddKeeps(p, KeyText(c.value).value, Canonical(body, MAX_BYTES).value);
        }
      }
    case Settled(h, r, output, retention) => SettleKeeps(l, h, r, output, now, retention);
    case Closed => CloseKeeps(l);
  }

  // -------------------------------------------------------------------- runs

  /** A run of the provider under a clock that never goes back. */
  ghost predicate History(ls: seq<Ledger>, es: seq<Event>, clock: seq<real>) {
    && |ls| == |es| + 1 && |clock| == |es|
    && ls[0].records == [] && ls[0].table == map[] && !ls[0].closed
    && (forall i :: 0 <= i < |es| ==> Step(ls[i], es[i], clock[i], ls[i + 1]))
    && (forall i, j :: 0 <= i <= j < |es| ==> clock[i] <= clock[j])
  }

  lemma {:induction false} RunKeeps(ls: seq<Ledger>, es: seq<Event>, clock: seq<real>, i: nat)
    requires History(ls, es, clock) && i < |ls|
    ensures LedgerOk(ls[i]) && ls[i].maximum == ls[0].maximum
  {
    hide Step, LedgerOk;
    if i == 0 {
      NothingYet(ls[0]);
    } else {
      RunKeeps(ls, es, clock, i - 1);
      StepKeeps(ls[i - 1], es[i - 1], clock[i - 1], ls[i - 1 + 1]);
    }
  }

  lemma NothingYet(l: Ledger)
    requires l.records == [] && l.table == map[] && !l.closed
    ensures LedgerOk(l)
  {
  }

  /** The map never outgrows the bound the provider was made with. */
  lemma NeverOutgrows(ls: seq<Ledger>, es: seq<Event>, clock: seq<real>, i: nat)
    requires History(ls, es, clock) && i < |ls|
    ensures |ls[i].table| <= ls[0].maximum
  {
    hide Step;
    RunKeeps(ls, es, clock, i);
  }

  /** Per key at most one handler run is in flight, whether or not the provider has
      been closed since. */
  lemma OneRunPerKey(ls: seq<Ledger>, es: seq<Event>, clock: seq<real>, i: nat, g: nat, h: nat)
    requires History(ls, es, clock) && i < |ls|
    requires InFlight(ls[i], g) && InFlight(ls[i], h) && ls[i].records[g].key == ls[i].records[h].key
    ensures g == h
  {
    RunKeeps(ls, es, clock, i);
  }

  /** A record that answers for its key. */
  ghost predicate Standing(l: Ledger, h: nat, r: Record) {
    h < |l.records| && l.records[h] == r && r.key in l.table && l.table[r.key] == h
  }

  lemma StandingStays(l: Ledger, e: Event, now: real, m: Ledger, h: nat, r: Record)
    requires LedgerOk(l) && Step(l, e, now, m) && Standing(l, h, r)
    requires r.outcome.Some? && now < r.expires && !m.closed
    ensures Standing(m, h, r)
  {
    hide Canonical, KeyText, Judge;
  }

  /** While the provider is open, a settled record stays where it is until its
      retention ends, whatever else happens. */
  lemma {:induction false} StandsUntilExpiry(ls: seq<Ledger>, es: seq<Event>, clock: seq<real>, i: nat, j: nat, h: nat)
    requires History(ls, es, clock) && i <= j < |ls| && !ls[j].closed
    requires h < |ls[i].records| && Standing(ls[i], h, ls[i].records[h]) && ls[i].records[h].outcome.Some?
    requires j > 0 ==> clock[j - 1] < ls[i].records[h].expires
    ensures Standing(ls[j], h, ls[i].records[h])
    decreases j
  {
    hide Step, LedgerOk, Standing;
    if j > i {
      RunKeeps(ls, es, clock, j - 1);
      StepKeeps(ls[j - 1], es[j - 1], clock[j - 1], ls[j - 1 + 1]);
      StandsUntilExpiry(ls, es, clock, i, j - 1, h);
      StandingStays(ls[j - 1], es[j - 1], clock[j - 1], ls[j - 1 + 1], h, ls[i].records[h]);
    }
  }

  /** A settled key is not run again before its retention ends: the same payload gets
      the recorded outcome, any other gets CONFLICT. */
  lemma AnsweredFromRecord(ls: seq<Ledger>, es: seq<Event>, clock: seq<real>, i: nat, j: nat, h: nat, call: Call, first: Value, body: Value, now: real)
    requires History(ls, es, clock) && i <= j < |ls| && !ls[j].closed
    requires h < |ls[i].records| && Standing(ls[i], h, ls[i].records[h])
    requires ls[i].records[h].outcome.Some? && now < ls[i].records[h].expires && (j > 0 ==> clock[j - 1] <= now)
    requires KeyText(call) == Ok(ls[i].records[h].key)
    requires Canonical(first, MAX_BYTES) == Ok(ls[i].records[h].payload) && Canonical(body, MAX_BYTES).Ok?
    ensures
      var answer := Begin(ls[j], Some(call), body, now).1;
      if body == first then answer == Replay(ls[i].records[h].outcome.value) else answer == Refuse(CONFLICT)
  {
    hide Canonical, KeyText, Step;
    StandsUntilExpiry(ls, es, clock, i, j, h);
    if body != first && Canonical(body, MAX_BYTES) == Canonical(first, MAX_BYTES) {
      CanonicalInjective(body, first, MAX_BYTES, MAX_BYTES);
    }
  }

  /** What was written about a run stays: its key and payload from the start, its outcome
      and the end of its retention once it has settled. */
  ghost predicate RecordsStay(l: Ledger, m: Ledger) {
    && |l.records| <= |m.records|
    && forall h: nat :: h < |l.records| ==>
         && m.records[h].key == l.records[h].key && m.records[h].payload == l.records[h].payload
         && (l.records[h].outcome.Some? ==> m.records[h] == l.records[h])
  }

  lemma StepStays(l: Ledger, e: Event, now: real, m: Ledger)
    requires Step(l, e, now, m)
    ensures RecordsStay(l, m) && (l.closed ==> m.closed)
  {
    hide Canonical, KeyText, Judge, Prune;
  }

  lemma {:induction false} RunStays(ls: seq<Ledger>, es: seq<Event>, clock: seq<real>, i: nat, j: nat)
    requires History(ls, es, clock) && i <= j < |ls|
    ensures RecordsStay(ls[i], ls[j]) && (ls[i].closed ==> ls[j].closed)
    decreases j
  {
    hide Step;
    if j > i {
      RunStays(ls, es, clock, i, j - 1);
      assert Step(ls[j - 1], es[j - 1], clock[j - 1], ls[j - 1 + 1]);
      StepStays(ls[j - 1], es[j - 1], clock[j - 1], ls[j]);
    }
  }

  /** The handler run h was started by this call with this body, at step i. */
  ghost predicate StartedAt(ls: seq<Ledger>, es: seq<Event>, clock: seq<real>, i: nat, call: Call, body: Value, h: nat)
    requires |ls| == |es| + 1 && |clock| == |es|
  {
    i < |es| && es[i] == Began(Some(call), body) && Begin(ls[i], Some(call), body, clock[i]).1 == Run(Some(h))
  }

  lemma StartedIs(ls: seq<Ledger>, es: seq<Event>, clock: seq<real>, i: nat, call: Call, body: Value, h: nat, j: nat)
    requires History(ls, es, clock) && StartedAt(ls, es, clock, i, call, body, h) && i < j < |ls|
    ensures h < |ls[j].records| && KeyText(call) == Ok(ls[j].records[h].key) && Canonical(body, MAX_BYTES) == Ok(ls[j].records[h].payload)
  {
    hide Canonical, KeyText, RecordsStay;
    assert Step(ls[i], es[i], clock[i], ls[i + 1]);
    RunStays(ls, es, clock, i + 1, j);
    StaysSays(ls[i + 1], ls[j], h);
  }

  lemma StaysSays(l: Ledger, m: Ledger, h: nat)
    requires RecordsStay(l, m) && h < |l.records|
    ensures h < |m.records| && m.records[h].key == l.records[h].key && m.records[h].payload == l.records[h].payload
    ensures l.records[h].outcome.Some? ==> m.records[h] == l.records[h]
  {
  }

  /** The retention law. A call starts a run, the run ends at `clock[i]` and is to be
      retained for so long: until then, as long as the provider is open, the same call
      with the same payload gets what the run came to, and with another CONFLICT. */
  lemma RetainedForRetention(ls: seq<Ledger>, es: seq<Event>, clock: seq<real>, a: nat, i: nat, j: nat, call: Call, first: Value, body: Value, now: real)
    requires History(ls, es, clock) && a < i < j < |ls| && !ls[j].closed && es[i].Settled?
    requires StartedAt(ls, es, clock, a, call, first, es[i].record)
    requires clock[j - 1] <= now < clock[i] + es[i].retention && Canonical(body, MAX_BYTES).Ok?
    ensures
      var answer := Begin(ls[j], Some(call), body, now).1;
      if body == first then answer == Replay(Judge(es[i].result, es[i].output)) else answer == Refuse(CONFLICT)
  {
    hide Canonical, KeyText, Judge, Begin, Step, RecordsStay, LedgerOk, Standing, StartedAt;
    SettledIs(ls, es, clock, a, i, i + 1, call, first);
    RunStays(ls, es, clock, i, j);
    RunStays(ls, es, clock, i + 1, j);
    RunKeeps(ls, es, clock, i);
    StandsWhenSettled(ls, es, clock, i);
    AnsweredFromRecord(ls, es, clock, i + 1, j, es[i].record, call, first, body, now);
  }

  lemma StandsWhenSettled(ls: seq<Ledger>, es: seq<Event>, clock: seq<real>, i: nat)
    requires History(ls, es, clock) && i < |es| && es[i].Settled? && !ls[i].closed
    ensures es[i].record < |ls[i + 1].records| && Standing(ls[i + 1], es[i].record, ls[i + 1].records[es[i].record])
  {
    hide Canonical, Judge;
    RunKeeps(ls, es, clock, i);
    assert Step(ls[i], es[i], clock[i], ls[i + 1]);
  }

  /** What is written about a settled run, from then on. */
  lemma SettledIs(ls: seq<Ledger>, es: seq<Event>, clock: seq<real>, a: nat, i: nat, j: nat, call: Call, first: Value)
    requires History(ls, es, clock) && a < i < j < |ls| && es[i].Settled?
    requires StartedAt(ls, es, clock, a, call, first, es[i].record)
    ensures es[i].record < |ls[j].records|
    ensures
      var r := ls[j].records[es[i].record];
      && KeyText(call) == Ok(r.key) && Canonical(first, MAX_BYTES) == Ok(r.payload)
      && r.outcome == Some(Judge(es[i].result, es[i].output)) && r.expires == clock[i] + es[i].retention
  {
    hide Canonical, KeyText, Judge, RecordsStay;
    StartedIs(ls, es, clock, a, call, first, es[i].record, j);
    assert Step(ls[i], es[i], clock[i], ls[i + 1]);
    RunStays(ls, es, clock, i + 1, j);
    StaysSays(ls[i + 1], ls[j], es[i].record);
  }

  /** The keys that are not to be had: their run is in flight or still retained. */
  ghost function Held(l: Ledger, now: real): set<Text> {
    set k | k in l.table && l.table[k] < |l.records|
            && (l.records[l.table[k]].outcome.None? || now < l.records[l.table[k]].expires)
  }

  lemma PruneHolds(l: Ledger, now: real)
    requires LedgerOk(l)
    ensures Prune(l, now).Keys == Held(l, now) && |Prune(l, now)| == |Held(l, now)|
  {
    hide FlightsOk, Repeatable;
    assert Prune(l, now).Keys == Held(l, now);
    assert |Prune(l, now).Keys| == |Prune(l, now)|;
  }

  /** A keyed call starts its handler exactly when the provider is open, call and body
      have a canonical text, the key is not held, and fewer keys than the bound are. */
  lemma RunsExactly(l: Ledger, call: Call, body: Value, now: real)
    requires LedgerOk(l)
    ensures Begin(l, Some(call), body, now).1 == Run(Some(|l.records|)) <==>
      && !l.closed && KeyText(call).Ok? && Canonical(body, MAX_BYTES).Ok?
      && KeyText(call).value !in Held(l, now) && |Held(l, now)| < l.maximum
    ensures Begin(l, Some(call), body, now).1.Run? ==> Begin(l, Some(call), body, now).1 == Run(Some(|l.records|))
    ensures !l.closed && KeyText(call).Ok? && Canonical(body, MAX_BYTES).Ok? && KeyText(call).value !in Held(l, now) && |Held(l, now)| >= l.maximum ==>
      Begin(l, Some(call), body, now).1 == Refuse(RESOURCE_EXHAUSTED)
    ensures l.closed ==> Begin(l, Some(call), body, now) == (l, Refuse(UNAVAILABLE))
    ensures Begin(l, None, body, now) == (l, if l.closed then Refuse(UNAVAILABLE) else Run(None))
  {
    hide Canonical, KeyText, LedgerOk, Prune;
    PruneHolds(l, now);
    assert forall k :: k in Prune(l, now) <==> k in Held(l, now);
    hide Held;
  }

  /** The other side of the retention law: when it is over, and unless another run has
      the key by then, the same call runs again, if there is room. */
  lemma RunsAgainAfterRetention(ls: seq<Ledger>, es: seq<Event>, clock: seq<real>, a: nat, i: nat, j: nat, call: Call, first: Value, body: Value, now: real)
    requires History(ls, es, clock) && a < i < j < |ls| && !ls[j].closed && es[i].Settled?
    requires StartedAt(ls, es, clock, a, call, first, es[i].record)
    requires clock[i] + es[i].retention <= now && Canonical(body, MAX_BYTES).Ok?
    requires KeyText(call).Ok? && (KeyText(call).value in ls[j].table ==> ls[j].table[KeyText(call).value] == es[i].record)
    requires |Held(ls[j], now)| < ls[j].maximum
    ensures Begin(ls[j], Some(call), body, now).1 == Run(Some(|ls[j].records|))
  {
    hide Canonical, KeyText, Judge, Prune, History, LedgerOk, Begin;
    SettledIs(ls, es, clock, a, i, j, call, first);
    RunKeeps(ls, es, clock, j);
    RunsExactly(ls[j], call, body, now);
  }

  /** A success is recorded exactly for a value that has a canonical text and that the
      operation's output type admits, and then for that very value; an error keeps its
      code and anything else is CONTRACT_MISMATCH. */
  lemma JudgesExactly(r: Result<Value>, output: Value -> bool)
    ensures forall v :: Judge(r, output) == Success(v) <==> r == Ok(v) && Canonical(v, MAX_BYTES).Ok? && output(v)
    ensures r.Err? ==> Judge(r, output) == Failure(r.code)
    ensures r.Ok? && Judge(r, output).Failure? ==> Judge(r, output).code == CONTRACT_MISMATCH
  {
    hide Canonical, Detach;
    if r.Ok? {
      DetachIsIdentity(r.value, MAX_BYTES);
    }
  }

  /** While a run is in flight its key is CONFLICT for everyone, same payload or not. */
  lemma InFlightConflicts(ls: seq<Ledger>, es: seq<Event>, clock: seq<real>, j: nat, h: nat, call: Call, body: Value, now: real)
    requires History(ls, es, clock) && j < |ls| && !ls[j].closed && InFlight(ls[j], h)
    requires KeyText(call) == Ok(ls[j].records[h].key) && Canonical(body, MAX_BYTES).Ok?
    ensures Begin(ls[j], Some(call), body, now).1 == Refuse(CONFLICT)
  {
    hide Canonical, KeyText, Step;
    RunKeeps(ls, es, clock, j);
  }

  /** A handler is started for a keyed call only when no record, running or retained,
      answers for that key, and it then has a record of its own in flight. */
  lemma RunsOnlyWhenFree(l: Ledger, call: Call, body: Value, now: real)
    requires LedgerOk(l) && Begin(l, Some(call), body, now).1.Run?
    ensures
      var m := Begin(l, Some(call), body, now).0;
      && KeyText(call).Ok?
      && (forall h: nat :: InFlight(l, h) ==> l.records[h].key != KeyText(call).value)
      && (KeyText(call).value in l.table ==> Expired(l.records[l.table[KeyText(call).value]], now))
      && InFlight(m, |l.records|) && Standing(m, |l.records|, m.records[|l.records|])
      && |m.table| <= m.maximum
      && (forall k :: k in l.table && !Expired(l.records[l.table[k]], now) ==> k in m.table && m.table[k] == l.table[k])
  {
    hide Canonical, KeyText;
    StepKeeps(l, Began(Some(call), body), now, Begin(l, Some(call), body, now).0);
  }

  // --------------------------------------------------------------- the class

  class ContractProvider {
    const maximum: nat
    var closed: bool
    var table: map<Text, nat>
    var records: seq<Record>

    ghost function View(): Ledger
      reads this
    {
      Ledger(closed, table, records, maximum)
    }

    ghost predicate Valid()
      reads this
    {
      LedgerOk(View())
    }

    constructor (limit: nat)
      requires 0 < limit <= 4096
      ensures Valid() && View() == Ledger(false, map[], [], limit)
    {
      maximum, closed, table, records := limit, false, map[], [];
    }

    /** Forgets the settled records whose retention is over. */
    method Sweep(now: real)
      requires Valid()
      modifies this
      ensures Valid() && View() == old(View()).(table := Prune(old(View()), now))
    {
      hide LedgerOk, Repeatable, Expired;
      ghost var start := View();
      PruneKeeps(start, now);
      var keys := table.Keys;
      while keys != {}
        invariant keys <= table.Keys && View() == start.(table := table)
        invariant table == map k | k in start.table && (k in keys || k in Prune(start, now)) :: start.table[k]
        decreases |keys|
      {
        var k :| k in keys;
        keys := keys - {k};
        if table[k] < |records| && Expired(records[table[k]], now) {
          table := table - {k};
        }
      }
      assert table == Prune(start, now);
    }

    method Enter(c: Option<Call>, body: Value, now: real) returns (start: Start)
      requires Valid()
      modifies this
      ensures Valid() && (View(), start) == Begin(old(View()), c, body, now)
    {
      hide LedgerOk, Canonical, Prune;
      StepKeeps(View(), Began(c, body), now, Begin(View(), c, body, now).0);
      if closed {
        return Refuse(UNAVAILABLE);
      }
      if c.None? {
        return Start.Run(None);
      }
      Sweep(now);
      var k := Codec.Print(CallValue(c.value), MAX_BYTES);
      if k.Err? {
        return Refuse(k.code);
      }
      var digest := Codec.Print(body, MAX_BYTES);
      if digest.Err? {
        return Refuse(digest.code);
      }
      if k.value in table {
        return Answer(Ledger(closed, table, records, maximum), table[k.value], digest.value);
      }
      if |table| >= maximum {
        return Refuse(RESOURCE_EXHAUSTED);
      }
      table := table[k.value := |records|];
      records := records + [Record(k.value, digest.value, 0.0, None)];
      start := Start.Run(Some(|records| - 1));
    }

    method Leave(h: nat, r: Result<Value>, output: Value -> bool, now: real, retention: real)
      requires Valid() && InFlight(View(), h)
      modifies this
      ensures Valid() && View() == Settle(old(View()), h, Judge(r, output), now, retention)
    {
      hide LedgerOk, Canonical;
      SettleKeeps(View(), h, r, output, now, retention);
      var outcome := Failure(CONTRACT_MISMATCH);
      match r {
        case Err(code) => outcome := Failure(code);
        case Ok(v) =>
          var text := Codec.Print(v, MAX_BYTES);
          if text.Ok? {
            var own := Codec.ParseText(text.value, MAX_BYTES);
            if own.Ok? && output(own.value) {
              outcome := Success(own.value);
            }
          }
      }
      records := records[h := records[h].(outcome := Some(outcome), expires := now + retention)];
    }

    method Shut()
      requires Valid()
      modifies this
      ensures Valid() && View() == Close(old(View()))
    {
      CloseKeeps(View());
      closed := true;
      table := map[];
    }
  }
}
