/** Event delivery: bounded queues, one pump per subscription, and every await between
    them. */
module Events {
  import opened Texts
  import opened Values

  /** `number` is the source's own counter at the time of the emit. */
  datatype Event = Event(source: Text, number: nat, data: Value)

  /** Where a pump stands: at its first await, in its loop, about to call the handler
      with the event it took as number `at`, or waiting for that call. */
  datatype Pump = Starting | Looking | Calling(at: nat) | Waiting(at: nat)

  /** `pumps` are the pumps at work; the other three are histories: every event put in
      the queue, every event taken out of it, and which of those reached the handler. */
  datatype Subscription = Subscription(
    live: bool,
    working: bool,
    listed: bool,
    queue: seq<Event>,
    pumps: seq<Pump>,
    offered: seq<Event>,
    taken: seq<Event>,
    started: seq<nat>)

  datatype Hub = Hub(subs: seq<Subscription>, numbers: map<Text, nat>, bound: nat)

  const NEW_SUBSCRIPTION := Subscription(true, false, true, [], [], [], [], [])

  function Shut(s: Subscription): Subscription {
    s.(live := false, queue := [], listed := false)
  }

  /** `emit`, for one subscription; `wanted` says whether type, contract, state and
      visibility fit. */
  function Offer(s: Subscription, e: Event, wanted: bool, bound: nat): Subscription {
    if !s.listed || !s.live || !wanted then s
    else if |s.queue| >= bound then Shut(s)
    else
      var q := s.(queue := s.queue + [e], offered := s.offered + [e]);
      if q.working then q else q.(working := true, pumps := q.pumps + [Starting])
  }

  function NextNumber(h: Hub, source: Text): nat {
    (if source in h.numbers then h.numbers[source] else 0) + 1
  }

  function Emit(h: Hub, source: Text, data: Value, wanted: nat -> bool): Hub {
    var e := Event(source, NextNumber(h, source), data);
    h.(subs := seq(|h.subs|, k requires 0 <= k < |h.subs| => Offer(h.subs[k], e, wanted(k), h.bound)),
       numbers := h.numbers[source := e.number])
  }

  datatype Turn =
    | Subscribes
    | Emits(source: Text, data: Value, wanted: nat -> bool)
    | Stops(k: nat)
    | Wakes(k: nat, p: nat)
    | Takes(k: nat, p: nat, allowed: bool)
    | Calls(k: nat, p: nat, allowed: bool)
    | Settles(k: nat, p: nat)
    | Leaves(k: nat, p: nat)

  predicate At(s: Subscription, p: nat, phase: Pump) {
    p < |s.pumps| && s.pumps[p] == phase
  }

  function Move(s: Subscription, p: nat, phase: Pump): Subscription
    requires p < |s.pumps|
  {
    s.(pumps := s.pumps[p := phase])
  }

  /** The pump takes the head; if its authority checks fail it goes on with the next. */
  function Take(s: Subscription, p: nat, allowed: bool): Subscription
    requires p < |s.pumps| && s.queue != []
  {
    Move(s.(taken := s.taken + [s.queue[0]], queue := s.queue[1..]), p, if allowed then Calling(|s.taken|) else Looking)
  }

  /** The deferred call: it looks again before it really calls. */
  function Call(s: Subscription, p: nat, at: nat, allowed: bool): Subscription
    requires p < |s.pumps|
  {
    if s.live && allowed then Move(s.(started := s.started + [at]), p, Waiting(at)) else Move(s, p, Looking)
  }

  function Leave(s: Subscription, p: nat): Subscription
    requires p < |s.pumps|
  {
    s.(pumps := s.pumps[..p] + s.pumps[p + 1..], working := false)
  }

  /** One turn of one pump. */
  ghost predicate PumpTurn(s: Subscription, t: Turn, r: Subscription) {
    match t
    case Stops(_) => r == Shut(s)
    case Wakes(_, p) => At(s, p, Starting) && r == Move(s, p, Looking)
    case Takes(_, p, allowed) => At(s, p, Looking) && s.live && s.queue != [] && r == Take(s, p, allowed)
    case Calls(_, p, allowed) => p < |s.pumps| && s.pumps[p].Calling? && r == Call(s, p, s.pumps[p].at, allowed)
    case Settles(_, p) => p < |s.pumps| && s.pumps[p].Waiting? && r == Move(s, p, Looking)
    case Leaves(_, p) => At(s, p, Looking) && !(s.live && s.queue != []) && r == Leave(s, p)
    case _ => false
  }

  ghost predicate Step(h: Hub, t: Turn, g: Hub) {
    match t
    case Subscribes => g == h.(subs := h.subs + [NEW_SUBSCRIPTION])
    case Emits(source, data, wanted) => g == Emit(h, source, data, wanted)
    case _ => t.k < |h.subs| && exists r :: PumpTurn(h.subs[t.k], t, r) && g == h.(subs := h.subs[t.k := r])
  }

  // ------------------------------------------------------------- what is kept

  /** Numbers from one source only go up, and none is ahead of its counter. */
  ghost predicate Numbered(offered: seq<Event>, numbers: map<Text, nat>) {
    && (forall i: nat, j: nat :: i < j < |offered| && offered[i].source == offered[j].source ==> offered[i].number < offered[j].number)
    && (forall i: nat :: i < |offered| ==> offered[i].source in numbers && offered[i].number <= numbers[offered[i].source])
  }

  /** The handler is called in the order of taking, at most once for each. */
  ghost predicate CallsOk(s: Subscription) {
    && (forall i: nat, j: nat :: i < j < |s.started| ==> s.started[i] < s.started[j])
    && (forall i: nat :: i < |s.started| ==> s.started[i] < |s.taken|)
    && (forall p: nat :: p < |s.pumps| && s.pumps[p].Calling? ==>
          s.pumps[p].at == |s.taken| - 1 && forall i: nat :: i < |s.started| ==> s.started[i] < s.pumps[p].at)
  }

  ghost predicate SubOk(s: Subscription, numbers: map<Text, nat>, bound: nat) {
    && |s.pumps| == (if s.working then 1 else 0)
    && (s.live && s.queue != [] ==> s.working)
    && |s.queue| <= bound
    && (s.live ==> s.offered == s.taken + s.queue)
    && (s.live <==> s.listed)
    && (!s.live ==> s.queue == [] && s.taken <= s.offered)
    && Numbered(s.offered, numbers)
    && CallsOk(s)
  }

  ghost predicate HubOk(h: Hub) {
    forall k :: 0 <= k < |h.subs| ==> SubOk(h.subs[k], h.numbers, h.bound)
  }

  lemma OfferKeeps(s: Subscription, numbers: map<Text, nat>, e: Event, wanted: bool, bound: nat)
    requires SubOk(s, numbers, bound)
    requires e.number == (if e.source in numbers then numbers[e.source] else 0) + 1
    ensures SubOk(Offer(s, e, wanted, bound), numbers[e.source := e.number], bound)
  {
    hide Numbered, CallsOk;
    var r := Offer(s, e, wanted, bound);
    assert s.taken + (s.queue + [e]) == s.taken + s.queue + [e];
    assert !r.live && s.live ==> s.taken <= s.offered;
    OfferNumbers(s.offered, numbers, e);
    OfferCalls(s, r);
  }

  lemma OfferNumbers(offered: seq<Event>, numbers: map<Text, nat>, e: Event)
    requires Numbered(offered, numbers) && e.number == (if e.source in numbers then numbers[e.source] else 0) + 1
    ensures Numbered(offered, numbers[e.source := e.number]) && Numbered(offered + [e], numbers[e.source := e.number])
  {
  }

  lemma OfferCalls(s: Subscription, r: Subscription)
    requires CallsOk(s) && r.started == s.started && r.taken == s.taken
    requires forall p: nat :: p < |r.pumps| && r.pumps[p].Calling? ==> p < |s.pumps| && s.pumps[p] == r.pumps[p]
    ensures CallsOk(r)
  {
  }

  lemma TurnKeeps(s: Subscription, numbers: map<Text, nat>, t: Turn, r: Subscription, bound: nat)
    requires SubOk(s, numbers, bound) && PumpTurn(s, t, r)
    ensures SubOk(r, numbers, bound)
  {
    hide Numbered;
    if t.Takes? {
      assert s.queue == [s.queue[0]] + s.queue[1..];
      assert r.taken + r.queue == s.taken + s.queue;
    }
    if t.Calls? && r.started != s.started {
      assert forall i: nat :: i < |s.started| ==> s.started[i] < s.pumps[t.p].at;
    }
  }

  lemma StepKeeps(h: Hub, t: Turn, g: Hub)
    requires HubOk(h) && Step(h, t, g)
    ensures HubOk(g)
  {
    hide SubOk, PumpTurn, Offer;
    match t
    case Subscribes => assert SubOk(NEW_SUBSCRIPTION, h.numbers, h.bound) by { NewOk(h.numbers, h.bound); }
    case Emits(source, data, wanted) =>
      var e := Event(source, NextNumber(h, source), data);
      forall k | 0 <= k < |h.subs|
        ensures SubOk(Offer(h.subs[k], e, wanted(k), h.bound), g.numbers, h.bound)
      {
        OfferKeeps(h.subs[k], h.numbers, e, wanted(k), h.bound);
      }
    case _ =>
      var r :| PumpTurn(h.subs[t.k], t, r) && g == h.(subs := h.subs[t.k := r]);
      TurnKeeps(h.subs[t.k], h.numbers, t, r, h.bound);
  }

  lemma EmitKeeps(h: Hub, source: Text, data: Value, wanted: nat -> bool)
    requires HubOk(h)
    ensures HubOk(Emit(h, source, data, wanted))
  {
    StepKeeps(h, Emits(source, data, wanted), Emit(h, source, data, wanted));
  }

  lemma NewOk(numbers: map<Text, nat>, bound: nat)
    ensures SubOk(NEW_SUBSCRIPTION, numbers, bound)
  {
  }

  ghost predicate Run(hs: seq<Hub>, ts: seq<Turn>) {
    && |hs| == |ts| + 1 && hs[0].subs == [] && hs[0].numbers == map[]
    && forall i :: 0 <= i < |ts| ==> Step(hs[i], ts[i], hs[i + 1])
  }

  lemma {:induction false} RunKeeps(hs: seq<Hub>, ts: seq<Turn>, i: nat)
    requires Run(hs, ts) && i < |hs|
    ensures HubOk(hs[i]) && hs[i].bound == hs[0].bound
  {
    hide HubOk, Step;
    if i == 0 {
      assert HubOk(hs[0]) by { NoSubscriptions(hs[0]); }
    } else {
      RunKeeps(hs, ts, i - 1);
      assert Step(hs[i - 1], ts[i - 1], hs[i - 1 + 1]);
      StepKeeps(hs[i - 1], ts[i - 1], hs[i]);
      SameBound(hs[i - 1], ts[i - 1], hs[i]);
    }
  }

  lemma NoSubscriptions(h: Hub)
    requires h.subs == []
    ensures HubOk(h)
  {
  }

  lemma SameBound(h: Hub, t: Turn, g: Hub)
    requires Step(h, t, g)
    ensures g.bound == h.bound
  {
    hide PumpTurn, Offer;
  }

  /** In every state of every run: no subscription ever has two pumps; a live one with
      something queued has one (no wake-up is lost); no queue outgrows its bound; and
      while it is live nothing it was offered is lost. */
  lemma NoLostWakeUp(hs: seq<Hub>, ts: seq<Turn>, i: nat, k: nat)
    requires Run(hs, ts) && i < |hs| && k < |hs[i].subs|
    ensures
      var s := hs[i].subs[k];
      && |s.pumps| <= 1 && |s.queue| <= hs[0].bound
      && (s.live && s.queue != [] ==> |s.pumps| == 1)
      && (s.live ==> s.offered == s.taken + s.queue)
  {
    hide Step;
    RunKeeps(hs, ts, i);
  }

  /** The handler gets the events in the order they were emitted, none twice, and those
      of one source with strictly increasing numbers. */
  lemma InOrderAtMostOnce(hs: seq<Hub>, ts: seq<Turn>, i: nat, k: nat, a: nat, b: nat)
    requires Run(hs, ts) && i < |hs| && k < |hs[i].subs| && a < b < |hs[i].subs[k].started|
    ensures
      var s := hs[i].subs[k];
      && s.started[a] < s.started[b] < |s.offered|
      && s.taken <= s.offered
      && (s.offered[s.started[a]].source == s.offered[s.started[b]].source ==>
            s.offered[s.started[a]].number < s.offered[s.started[b]].number)
  {
    hide Step;
    RunKeeps(hs, ts, i);
  }

  /** Nothing reaches the handler of a subscription that is no longer live. */
  lemma DeadStaysSilent(h: Hub, t: Turn, g: Hub, k: nat)
    requires HubOk(h) && Step(h, t, g) && k < |h.subs| && !h.subs[k].live
    ensures k < |g.subs| && !g.subs[k].live && g.subs[k].started == h.subs[k].started
  {
    hide SubOk;
    if t.Emits? {
      assert g.subs[k] == Offer(h.subs[k], Event(t.source, NextNumber(h, t.source), t.data), t.wanted(k), h.bound);
    }
  }

  // ---------------------------------------------------------- what an emit comes to

  /** The event gets the next number of its source. A live subscription that wants it has
      it at the end of its queue, under a pump, or, when the queue is full, is closed and
      emptied; every other subscription is as before. */
  lemma EmitsExactly(h: Hub, source: Text, data: Value, wanted: nat -> bool, k: nat)
    requires HubOk(h) && k < |h.subs|
    ensures
      var g := Emit(h, source, data, wanted);
      var n := if source in h.numbers then h.numbers[source] + 1 else 1;
      && g.numbers == h.numbers[source := n] && g.bound == h.bound && |g.subs| == |h.subs|
      && var s, r := h.subs[k], g.subs[k];
         if s.live && wanted(k) && |s.queue| < h.bound then
           && r.live && r.queue == s.queue + [Event(source, n, data)] && r.offered == s.offered + [Event(source, n, data)]
           && r.pumps == (if s.pumps == [] then [Starting] else s.pumps)
           && r.taken == s.taken && r.started == s.started
         else if s.live && wanted(k) then
           !r.live && r == s.(live := r.live, queue := [], listed := r.listed)
         else r == s
  {
    hide Numbered, CallsOk;
    assert SubOk(h.subs[k], h.numbers, h.bound);
    assert Emit(h, source, data, wanted).subs[k] == Offer(h.subs[k], Event(source, NextNumber(h, source), data), wanted(k), h.bound);
  }

  // ------------------------------------------------------- which events are called

  /** Turn t is one of subscription k's, and whatever it asks is allowed. */
  predicate Grants(t: Turn, k: nat) {
    match t
    case Takes(j, _, allowed) => j == k ==> allowed
    case Calls(j, _, allowed) => j == k ==> allowed
    case _ => true
  }

  /** Every event taken has been called, in its place, but for the one at hand. */
  ghost predicate AllCalled(s: Subscription) {
    && (forall i: nat :: i < |s.started| ==> s.started[i] == i)
    && |s.taken| == |s.started| + (if exists p: nat :: p < |s.pumps| && s.pumps[p].Calling? then 1 else 0)
  }

  lemma GrantedTurn(s: Subscription, numbers: map<Text, nat>, bound: nat, t: Turn, r: Subscription, k: nat)
    requires SubOk(s, numbers, bound) && PumpTurn(s, t, r) && Grants(t, k) && !t.Subscribes? && !t.Emits? && t.k == k
    requires AllCalled(s) && r.live
    ensures AllCalled(r)
  {
    hide Numbered;
    assert |s.pumps| <= 1;
    assert (exists p: nat :: p < |s.pumps| && s.pumps[p].Calling?) <==> |s.pumps| == 1 && s.pumps[0].Calling?;
    assert (exists p: nat :: p < |r.pumps| && r.pumps[p].Calling?) <==> |r.pumps| == 1 && r.pumps[0].Calling?;
  }

  lemma OfferedTurn(s: Subscription, e: Event, wanted: bool, bound: nat)
    requires AllCalled(s)
    ensures AllCalled(Offer(s, e, wanted, bound))
  {
    var r := Offer(s, e, wanted, bound);
    assert forall p: nat :: p < |r.pumps| && r.pumps[p].Calling? ==> p < |s.pumps| && s.pumps[p] == r.pumps[p];
    assert forall p: nat :: p < |s.pumps| ==> r.pumps[p] == s.pumps[p];
  }

  lemma NewIsCalled()
    ensures AllCalled(NEW_SUBSCRIPTION)
  {
  }

  lemma StillLive(h: Hub, t: Turn, g: Hub, k: nat)
    requires HubOk(h) && Step(h, t, g) && k < |h.subs| && k < |g.subs| && g.subs[k].live
    ensures h.subs[k].live
  {
    if !h.subs[k].live {
      DeadStaysSilent(h, t, g, k);
    }
  }

  lemma GrantedStep(h: Hub, t: Turn, g: Hub, k: nat)
    requires HubOk(h) && Step(h, t, g) && k < |g.subs| && Grants(t, k) && g.subs[k].live
    requires k < |h.subs| ==> AllCalled(h.subs[k])
    ensures AllCalled(g.subs[k])
  {
    hide SubOk, PumpTurn, AllCalled, Offer;
    match t
    case Subscribes =>
      if k == |h.subs| { NewIsCalled(); }
    case Emits(source, data, wanted) =>
      OfferedTurn(h.subs[k], Event(source, NextNumber(h, source), data), wanted(k), h.bound);
    case _ =>
      if t.k == k {
        GrantedTurn(h.subs[k], h.numbers, h.bound, t, g.subs[k], k);
      }
  }

  /** Delivery. A live subscription whose authority stood at every check has had its
      handler called for every event it was offered, in order, each once, but for what
      still waits in its queue and the one its pump is about to call. */
  lemma {:induction false} EveryEventIsCalled(hs: seq<Hub>, ts: seq<Turn>, i: nat, k: nat)
    requires Run(hs, ts) && i < |hs| && k < |hs[i].subs| && hs[i].subs[k].live
    requires forall j :: 0 <= j < i ==> Grants(ts[j], k)
    ensures AllCalled(hs[i].subs[k]) && hs[i].subs[k].offered == hs[i].subs[k].taken + hs[i].subs[k].queue
    decreases i
  {
    hide Step, HubOk, AllCalled;
    if i > 0 {
      RunKeeps(hs, ts, i - 1);
      assert Step(hs[i - 1], ts[i - 1], hs[i - 1 + 1]);
      if k < |hs[i - 1].subs| {
        StillLive(hs[i - 1], ts[i - 1], hs[i], k);
        EveryEventIsCalled(hs, ts, i - 1, k);
      }
      GrantedStep(hs[i - 1], ts[i - 1], hs[i], k);
      NoLostWakeUp(hs, ts, i, k);
    }
  }

  /** The event with number a of those taken was taken and, later, called while the
      subscription was live, and both times its authority stood. */
  ghost predicate Allowed(hs: seq<Hub>, ts: seq<Turn>, i: nat, k: nat, a: nat)
    requires |hs| == |ts| + 1
  {
    exists j: nat, l: nat :: j < l < i && l < |ts| && TakenAt(hs, ts, j, k, a) && CalledAt(hs, ts, l, k, a)
  }

  ghost predicate TakenAt(hs: seq<Hub>, ts: seq<Turn>, j: nat, k: nat, a: nat)
    requires |hs| == |ts| + 1
  {
    j < |ts| && k < |hs[j].subs| && ts[j].Takes? && ts[j].k == k && ts[j].allowed && |hs[j].subs[k].taken| == a
  }

  ghost predicate CalledAt(hs: seq<Hub>, ts: seq<Turn>, l: nat, k: nat, a: nat)
    requires |hs| == |ts| + 1
  {
    && l < |ts| && k < |hs[l].subs| && ts[l].Calls? && ts[l].k == k && ts[l].allowed && hs[l].subs[k].live
    && ts[l].p < |hs[l].subs[k].pumps| && hs[l].subs[k].pumps[ts[l].p] == Calling(a)
  }

  /** Who is about to be called was taken with authority. */
  lemma {:induction false} CallingWasTaken(hs: seq<Hub>, ts: seq<Turn>, i: nat, k: nat, p: nat, a: nat) returns (j: nat)
    requires Run(hs, ts) && i < |hs| && k < |hs[i].subs| && p < |hs[i].subs[k].pumps| && hs[i].subs[k].pumps[p] == Calling(a)
    ensures j < i && TakenAt(hs, ts, j, k, a)
    decreases i
  {
    hide HubOk;
    assert i > 0;
    var h, t, g := hs[i - 1], ts[i - 1], hs[i];
    assert Step(h, t, hs[i - 1 + 1]);
    RunKeeps(hs, ts, i - 1);
    if k < |h.subs| && p < |h.subs[k].pumps| && h.subs[k].pumps[p] == Calling(a) {
      j := CallingWasTaken(hs, ts, i - 1, k, p, a);
    } else {
      NewlyCalling(h, t, g, k, p, a);
      j := i - 1;
    }
  }

  lemma NewlyCalling(h: Hub, t: Turn, g: Hub, k: nat, p: nat, a: nat)
    requires HubOk(h) && Step(h, t, g) && k < |g.subs| && p < |g.subs[k].pumps| && g.subs[k].pumps[p] == Calling(a)
    requires !(k < |h.subs| && p < |h.subs[k].pumps| && h.subs[k].pumps[p] == Calling(a))
    ensures k < |h.subs| && t.Takes? && t.k == k && t.allowed && |h.subs[k].taken| == a
  {
    hide Numbered, CallsOk, Offer, PumpTurn;
    match t
    case Subscribes =>
    case Emits(source, data, wanted) =>
      OfferCalling(h.subs[k], Event(source, NextNumber(h, source), data), wanted(k), h.bound, p, a);
    case _ =>
      var r :| PumpTurn(h.subs[t.k], t, r) && g == h.(subs := h.subs[t.k := r]);
      if t.k == k {
        assert SubOk(h.subs[k], h.numbers, h.bound);
        PumpCalling(h.subs[k], t, r, p, a);
      }
  }

  lemma OfferCalling(s: Subscription, e: Event, wanted: bool, bound: nat, p: nat, a: nat)
    requires p < |Offer(s, e, wanted, bound).pumps| && Offer(s, e, wanted, bound).pumps[p] == Calling(a)
    ensures p < |s.pumps| && s.pumps[p] == Calling(a)
  {
  }

  lemma PumpCalling(s: Subscription, t: Turn, r: Subscription, p: nat, a: nat)
    requires |s.pumps| <= 1 && PumpTurn(s, t, r) && p < |r.pumps| && r.pumps[p] == Calling(a)
    requires !(p < |s.pumps| && s.pumps[p] == Calling(a))
    ensures t.Takes? && t.allowed && |s.taken| == a
  {
  }

  lemma StartedGrows(h: Hub, t: Turn, g: Hub, k: nat, a: nat)
    requires Step(h, t, g) && k < |g.subs| && a in g.subs[k].started && !(k < |h.subs| && a in h.subs[k].started)
    ensures k < |h.subs| && t.Calls? && t.k == k && t.allowed && h.subs[k].live
    ensures t.p < |h.subs[k].pumps| && h.subs[k].pumps[t.p] == Calling(a)
  {
    hide Offer, PumpTurn;
    match t
    case Subscribes =>
    case Emits(source, data, wanted) =>
      OfferStarts(h.subs[k], Event(source, NextNumber(h, source), data), wanted(k), h.bound);
    case _ =>
      var r :| PumpTurn(h.subs[t.k], t, r) && g == h.(subs := h.subs[t.k := r]);
      if t.k == k {
        PumpStarts(h.subs[k], t, r, a);
      }
  }

  lemma OfferStarts(s: Subscription, e: Event, wanted: bool, bound: nat)
    ensures Offer(s, e, wanted, bound).started == s.started
  {
  }

  lemma PumpStarts(s: Subscription, t: Turn, r: Subscription, a: nat)
    requires PumpTurn(s, t, r) && a in r.started && a !in s.started
    ensures t.Calls? && t.allowed && s.live && t.p < |s.pumps| && s.pumps[t.p] == Calling(a)
  {
  }

  /** Nothing reaches a handler without authority, taken and called. */
  lemma {:induction false} CalledWasAllowed(hs: seq<Hub>, ts: seq<Turn>, i: nat, k: nat, a: nat)
    requires Run(hs, ts) && i < |hs| && k < |hs[i].subs| && a in hs[i].subs[k].started
    ensures Allowed(hs, ts, i, k, a)
    decreases i
  {
    hide Step, TakenAt;
    assert i > 0;
    var h := hs[i - 1];
    assert Step(h, ts[i - 1], hs[i - 1 + 1]);
    if k < |h.subs| && a in h.subs[k].started {
      CalledWasAllowed(hs, ts, i - 1, k, a);
      var j: nat, l: nat :| j < l < i - 1 && l < |ts| && TakenAt(hs, ts, j, k, a) && CalledAt(hs, ts, l, k, a);
    } else {
      StartedGrows(h, ts[i - 1], hs[i], k, a);
      var j := CallingWasTaken(hs, ts, i - 1, k, ts[i - 1].p, a);
      assert CalledAt(hs, ts, i - 1, k, a);
    }
  }

  // ------------------------------------------------------------ a queue that empties

  /** Turns of subscription k's pump lead from h to g. */
  ghost predicate Pumps(h: Hub, g: Hub, k: nat) {
    exists hs, ts :: PumpsBy(h, g, k, hs, ts)
  }

  ghost predicate PumpsBy(h: Hub, g: Hub, k: nat, hs: seq<Hub>, ts: seq<Turn>) {
    && |hs| == |ts| + 1 && hs[0] == h && hs[|ts|] == g
    && forall i :: 0 <= i < |ts| ==> !ts[i].Subscribes? && !ts[i].Emits? && ts[i].k == k && Step(hs[i], ts[i], hs[i + 1])
  }

  lemma PumpsNot(h: Hub, k: nat)
    ensures Pumps(h, h, k)
  {
    var hs: seq<Hub>, ts: seq<Turn> := [h], [];
    assert PumpsBy(h, h, k, hs, ts);
  }

  /** One more turn. */
  lemma PumpsOn(h: Hub, g: Hub, k: nat, t: Turn, r: Subscription)
    requires Pumps(h, g, k) && k < |g.subs| && !t.Subscribes? && !t.Emits? && t.k == k && PumpTurn(g.subs[k], t, r)
    ensures Pumps(h, g.(subs := g.subs[k := r]), k)
  {
    hide PumpTurn;
    var m := g.(subs := g.subs[k := r]);
    var hs, ts :| PumpsBy(h, g, k, hs, ts);
    var more, done := hs + [m], ts + [t];
    forall i | 0 <= i < |done|
      ensures !done[i].Subscribes? && !done[i].Emits? && done[i].k == k && Step(more[i], done[i], more[i + 1])
    {
      if i < |ts| {
        assert Step(hs[i], ts[i], hs[i + 1]);
      } else {
        assert more[i] == g && more[i + 1] == m;
      }
    }
    assert PumpsBy(h, m, k, more, done);
  }

  /** The handlers of these events are called, in this order: those numbered from n on. */
  ghost function From(n: nat, count: nat): seq<nat> {
    seq(count, i requires 0 <= i < count => n + i)
  }

  /** A pump that looks takes the head of the queue, calls its handler and looks again. */
  lemma OneEvent(h: Hub, g: Hub, k: nat) returns (m: Hub)
    requires Pumps(h, g, k) && k < |g.subs|
    requires
      var s := g.subs[k];
      s.live && s.pumps == [Looking] && s.queue != []
    ensures Pumps(h, m, k)
    ensures
      var s := g.subs[k];
      m == g.(subs := g.subs[k := s.(queue := s.queue[1..], taken := s.taken + [s.queue[0]], started := s.started + [|s.taken|])])
  {
    hide Pumps, PumpTurn, Step;
    var s := g.subs[k];
    var a := Take(s, 0, true);
    assert a.pumps == [Calling(|s.taken|)];
    assert PumpTurn(s, Takes(k, 0, true), a) by { TakesNext(s, k); }
    PumpsOn(h, g, k, Takes(k, 0, true), a);
    var ga := g.(subs := g.subs[k := a]);
    var b := Call(a, 0, |s.taken|, true);
    assert b.pumps == [Waiting(|s.taken|)];
    assert PumpTurn(a, Calls(k, 0, true), b) by { CallsNext(a, k, |s.taken|); }
    PumpsOn(h, ga, k, Calls(k, 0, true), b);
    var gb := ga.(subs := ga.subs[k := b]);
    var c := Move(b, 0, Looking);
    assert PumpTurn(b, Settles(k, 0), c) by { SettlesNext(b, k); }
    PumpsOn(h, gb, k, Settles(k, 0), c);
    m := gb.(subs := gb.subs[k := c]);
    assert c.pumps == [Looking];
  }

  lemma TakesNext(s: Subscription, k: nat)
    requires s.live && s.pumps == [Looking] && s.queue != []
    ensures PumpTurn(s, Takes(k, 0, true), Take(s, 0, true))
  {
  }

  lemma CallsNext(s: Subscription, k: nat, at: nat)
    requires s.pumps == [Calling(at)]
    ensures PumpTurn(s, Calls(k, 0, true), Call(s, 0, at, true))
  {
  }

  lemma SettlesNext(s: Subscription, k: nat)
    requires |s.pumps| == 1 && s.pumps[0].Waiting?
    ensures PumpTurn(s, Settles(k, 0), Move(s, 0, Looking))
  {
  }

  lemma {:induction false} AllEvents(h: Hub, g: Hub, k: nat) returns (m: Hub)
    requires Pumps(h, g, k) && k < |g.subs| && g.subs[k].live && g.subs[k].pumps == [Looking]
    ensures Pumps(h, m, k)
    ensures
      var s := g.subs[k];
      m == g.(subs := g.subs[k := s.(queue := [], taken := s.taken + s.queue, started := s.started + From(|s.taken|, |s.queue|))])
    decreases |g.subs[k].queue|
  {
    hide Pumps;
    var s := g.subs[k];
    if s.queue == [] {
      m := g;
      assert s.taken + [] == s.taken && s.started + From(|s.taken|, 0) == s.started;
      assert g.subs[k := s] == g.subs;
    } else {
      var one := OneEvent(h, g, k);
      m := AllEvents(h, one, k);
      assert s.taken + [s.queue[0]] + s.queue[1..] == s.taken + s.queue;
      assert s.started + [|s.taken|] + From(|s.taken| + 1, |s.queue| - 1) == s.started + From(|s.taken|, |s.queue|);
    }
  }

  /** Progress. A live subscription with something in its queue has a pump that stands
      somewhere in its loop; left to itself, with its authority standing, it goes through
      the whole queue: every event is taken, and every one's handler called in turn. */
  lemma QueueDrains(h: Hub, k: nat) returns (m: Hub)
    requires HubOk(h) && k < |h.subs| && h.subs[k].live && h.subs[k].queue != []
    ensures Pumps(h, m, k) && k < |m.subs| && m.subs[k].live && m.subs[k].queue == []
    ensures m.subs[k].taken == h.subs[k].taken + h.subs[k].queue
    ensures
      var s := h.subs[k];
      m.subs[k].started ==
        s.started + (if s.pumps[0].Calling? then [s.pumps[0].at] else []) + From(|s.taken|, |s.queue|)
  {
    hide Pumps, PumpTurn, Numbered, CallsOk;
    var s := h.subs[k];
    assert SubOk(s, h.numbers, h.bound);
    PumpsNot(h, k);
    var g := h;
    match s.pumps[0] {
      case Looking => assert s.started + [] == s.started;
      case Starting =>
        assert PumpTurn(s, Wakes(k, 0), Move(s, 0, Looking)) by { WakesNext(s, k); }
        PumpsOn(h, h, k, Wakes(k, 0), Move(s, 0, Looking));
        g := h.(subs := h.subs[k := Move(s, 0, Looking)]);
        assert s.started + [] == s.started;
      case Waiting(_) =>
        SettlesNext(s, k);
        PumpsOn(h, h, k, Settles(k, 0), Move(s, 0, Looking));
        g := h.(subs := h.subs[k := Move(s, 0, Looking)]);
        assert s.started + [] == s.started;
      case Calling(at) =>
        CallsNext(s, k, at);
        var b := Call(s, 0, at, true);
        PumpsOn(h, h, k, Calls(k, 0, true), b);
        var gb := h.(subs := h.subs[k := b]);
        SettlesNext(b, k);
        PumpsOn(h, gb, k, Settles(k, 0), Move(b, 0, Looking));
        g := gb.(subs := gb.subs[k := Move(b, 0, Looking)]);
    }
    assert g.subs[k].pumps == [Looking];
    m := AllEvents(h, g, k);
  }

  lemma WakesNext(s: Subscription, k: nat)
    requires s.pumps == [Starting] || (|s.pumps| == 1 && s.pumps[0] == Starting)
    ensures PumpTurn(s, Wakes(k, 0), Move(s, 0, Looking))
  {
  }

  /** How many of the first k subscriptions take the event. */
  ghost function Admitted(subs: seq<Subscription>, e: Event, wanted: nat -> bool, bound: nat, k: nat): nat
    requires k <= |subs|
  {
    if k == 0 then 0
    else
      Admitted(subs, e, wanted, bound, k - 1)
      + if |Offer(subs[k - 1], e, wanted(k - 1), bound).offered| > |subs[k - 1].offered| then 1 else 0
  }

  // --------------------------------------------------------------- the class

  class EventHub {
    const bound: nat
    var subs: seq<Subscription>
    var numbers: map<Text, nat>

    ghost function View(): Hub
      reads this
    {
      Hub(subs, numbers, bound)
    }

    constructor (limit: nat)
      ensures View() == Hub([], map[], limit) && HubOk(View())
    {
      bound, subs, numbers := limit, [], map[];
    }

    /** `emit`: one pass over the subscriptions, in place. */
    method EmitAll(source: Text, data: Value, wanted: nat -> bool) returns (admitted: nat)
      requires HubOk(View())
      modifies this
      ensures View() == Emit(old(View()), source, data, wanted) && HubOk(View())
      ensures admitted == Admitted(old(subs), Event(source, NextNumber(old(View()), source), data), wanted, bound, |subs|)
    {
      hide HubOk, Offer, Admitted;
      EmitKeeps(View(), source, data, wanted);
      var number := (if source in numbers then numbers[source] else 0) + 1;
      numbers := numbers[source := number];
      admitted := OfferAll(Event(source, number, data), wanted);
    }

    method OfferAll(e: Event, wanted: nat -> bool) returns (admitted: nat)
      modifies this
      ensures subs == seq(|old(subs)|, k requires 0 <= k < |old(subs)| => Offer(old(subs)[k], e, wanted(k), bound))
      ensures numbers == old(numbers) && admitted == Admitted(old(subs), e, wanted, bound, |subs|)
    {
      hide Offer;
      ghost var start := subs;
      admitted := 0;
      var k := 0;
      while k < |subs|
        invariant k <= |subs| == |start| && numbers == old(numbers)
        invariant admitted == Admitted(start, e, wanted, bound, k)
        invariant forall j :: 0 <= j < |subs| ==> subs[j] == if j < k then Offer(start[j], e, wanted(j), bound) else start[j]
      {
        var one := OfferOne(k, e, wanted(k));
        admitted := admitted + one;
        k := k + 1;
      }
    }

    method OfferOne(k: nat, e: Event, wanted: bool) returns (admitted: nat)
      requires k < |subs|
      modifies this
      ensures subs == old(subs)[k := Offer(old(subs)[k], e, wanted, bound)] && numbers == old(numbers)
      ensures admitted == if |subs[k].offered| > |old(subs)[k].offered| then 1 else 0
    {
      admitted := 0;
      var s := subs[k];
      if s.listed && s.live && wanted {
        if |s.queue| >= bound {
          s := Shut(s);
        } else {
          s := s.(queue := s.queue + [e], offered := s.offered + [e]);
          admitted := 1;
          if !s.working {
            s := s.(working := true, pumps := s.pumps + [Starting]);
          }
        }
        subs := subs[k := s];
      }
    }
  }
}
