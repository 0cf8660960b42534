/** A stream call: a pump that pulls the provider one credit at a time, a channel to the
    reader, and every way either side can stop. Each step runs to the next await. */
module Backpressure {
  import opened Core
  import opened Channels

  /** Where the pump is: waiting for credit, woken with one, waiting for the provider's
      next item, its credit refused, or over. */
  datatype Pump = AwaitCredit | HasCredit | AwaitItem | Refused | Over

  /** The histories are what the provider produced and the reader got; `pulls` counts
      calls of the provider's `next`, `requests` the reader's calls that were admitted;
      `misgranted` records a `grant` that threw. */
  datatype Session<T> = Session(
    chan: Chan<T>,
    credits: Credits,
    pump: Pump,
    reading: bool,
    capacity: nat,
    pulls: nat,
    requests: nat,
    produced: seq<T>,
    delivered: seq<T>,
    misgranted: bool,
    overflowed: bool)

  function Refusing(pump: Pump, rejected: bool): Pump {
    if rejected then Refused else pump
  }

  /** The channel's callbacks: both close the window. */
  function Told<T>(s: Session<T>, c: Chan<T>): Session<T> {
    var t := s.(chan := c);
    if c.terminals == s.chan.terminals && c.abandons == s.chan.abandons then t
    else
      var shut := Shut(s.credits);
      t.(credits := shut.0, pump := Refusing(s.pump, shut.1))
  }

  function Failing<T>(s: Session<T>, code: ErrorCode): Session<T> {
    Told(s, Fail(s.chan, code).0)
  }

  /** The pump's own failure is its last act. */
  function Dies<T>(s: Session<T>, code: ErrorCode): Session<T> {
    Failing(s, code).(pump := Over)
  }

  /** `await credits.take()`. */
  function Takes<T>(s: Session<T>): Session<T> {
    match Take(s.credits)
    case Err(code) => s.(pump := Refused)
    case Ok((w, taken)) => s.(credits := w, pump := if taken then HasCredit else AwaitCredit)
  }

  /** `stream`, up to the pump's first await; `failure` is what the handler throws. */
  function Open<T>(capacity: nat, failure: Option<ErrorCode>): Session<T> {
    var s := Session(NewChan(), Credits(0, false, false, capacity), Over, false, capacity, 0, 0, [], [], false, false);
    if failure.Some? then Dies(s, failure.value) else Takes(s)
  }

  datatype Move<T> =
    | ReaderNext(verdict: Option<ErrorCode>)
    | ReaderSettled
    | ReaderReturn
    | PumpCredit(failure: Option<ErrorCode>)
    | PumpItem(item: T, failure: Option<ErrorCode>, verdict: Option<ErrorCode>)
    | PumpEnd
    | PumpFails(code: ErrorCode)
    | PumpRefused
    | Cancelled(code: ErrorCode)

  function Got<T>(reply: Reply<T>): seq<T> {
    if reply.Item? then [reply.value] else []
  }

  /** The reader's `next`: at most one call at a time, and one credit for it. */
  function ReaderNexts<T>(s: Session<T>, verdict: Option<ErrorCode>): Session<T> {
    if s.reading then s
    else
      var (c, reply) := Next(s.chan, verdict);
      var t := Told(s, c).(reading := true, requests := s.requests + 1, delivered := s.delivered + Got(reply));
      if t.credits.closed then t
      else match Grant(t.credits, 1)
        case Err(_) => t.(misgranted := true)
        case Ok((w, woke)) => t.(credits := w, pump := if woke then HasCredit else t.pump)
  }

  /** An item arrives: it is pushed, and the pump asks for the next credit. */
  function Pushes<T>(s: Session<T>, item: T, verdict: Option<ErrorCode>): Session<T> {
    var (c, reply, open) := Push(s.chan, s.capacity, item, verdict);
    var t := Told(s, c).(delivered := s.delivered + Got(reply), produced := s.produced + [item],
                         overflowed := s.overflowed || (!s.chan.done && !s.chan.ended && !s.chan.waiting));
    if open then Takes(t) else t.(pump := Over)
  }

  ghost predicate Moves<T(!new)>(s: Session<T>, m: Move<T>, t: Session<T>) {
    match m
    case ReaderNext(verdict) => t == ReaderNexts(s, verdict)
    case ReaderSettled => s.reading && !s.chan.waiting && t == s.(reading := false)
    case ReaderReturn => t == Told(s, Return(s.chan).0)
    case PumpCredit(failure) =>
      && s.pump == HasCredit
      && t == (if failure.Some? then Dies(s, failure.value) else s.(pump := AwaitItem, pulls := s.pulls + 1))
    case PumpItem(item, failure, verdict) =>
      && s.pump == AwaitItem
      && t == (if failure.Some? then Dies(s.(produced := s.produced + [item]), failure.value) else Pushes(s, item, verdict))
    case PumpEnd => s.pump == AwaitItem && t == Told(s, Finish(s.chan).0).(pump := Over)
    case PumpFails(code) => s.pump == AwaitItem && t == Dies(s, code)
    case PumpRefused => s.pump == Refused && t == Dies(s, CANCELLED)
    case Cancelled(code) => t == Failing(s, code)
  }

  // ------------------------------------------------------------- what is kept

  /** A credit the pump has but has not yet spent on a delivered item. */
  function InHand(p: Pump): nat {
    if p == HasCredit || p == AwaitItem then 1 else 0
  }

  /** While the window is open there is exactly one credit, in the window or in the
      pump's hands, if a reader waits, and none otherwise. */
  ghost predicate SessionOk<T(!new)>(s: Session<T>) {
    && 0 < s.capacity <= 256 && s.credits.maximum == s.capacity
    && ChanOk(s.chan, s.capacity) && s.chan.queue == []
    && (s.chan.waiting ==> s.reading)
    && (s.credits.waiting <==> s.pump == AwaitCredit)
    && (s.credits.closed ==> s.chan.done && s.credits.credit == 0 && !s.credits.waiting)
    && (s.credits.closed <==> s.chan.terminals + s.chan.abandons > 0)
    && (!s.credits.closed ==> s.credits.credit + InHand(s.pump) == (if s.chan.waiting then 1 else 0))
    && (s.pump == AwaitCredit ==> s.credits.credit == 0)
    && (s.pump == Refused ==> s.credits.closed)
    && (s.pump == Over ==> s.credits.closed)
    && !s.misgranted && !s.overflowed
    && s.delivered <= s.produced
    && (!s.credits.closed ==> s.delivered == s.produced)
    && |s.produced| + (if s.pump == AwaitItem then 1 else 0) <= s.pulls
    && s.pulls + s.credits.credit + (if s.pump == HasCredit then 1 else 0) <= s.requests
  }

  lemma OpenOk<T(!new)>(capacity: nat, failure: Option<ErrorCode>)
    requires 0 < capacity <= 256
    ensures SessionOk(Open<T>(capacity, failure))
  {
  }

  ghost predicate Grows<T(!new)>(s: Session<T>, t: Session<T>) {
    && t.capacity == s.capacity && s.produced <= t.produced && s.delivered <= t.delivered
    && (s.chan.ended ==> t.chan.ended && t.delivered == s.delivered)
  }

  /** Anything that goes wrong, whoever notices it. */
  lemma FailureKeeps<T(!new)>(s: Session<T>, code: ErrorCode)
    requires SessionOk(s)
    ensures SessionOk(Failing(s, code)) && Grows(s, Failing(s, code)) && Failing(s, code).credits.closed
  {
  }

  lemma ReturnKeeps<T(!new)>(s: Session<T>)
    requires SessionOk(s)
    ensures SessionOk(Told(s, Return(s.chan).0)) && Grows(s, Told(s, Return(s.chan).0))
  {
  }

  lemma EndKeeps<T(!new)>(s: Session<T>)
    requires SessionOk(s) && s.pump == AwaitItem
    ensures
      var t := Told(s, Finish(s.chan).0).(pump := Over);
      SessionOk(t) && Grows(s, t)
  {
  }

  /** A read finds the queue empty, so it either ends or waits; and the credit it brings
      is the only one there is. */
  lemma NextKeeps<T(!new)>(s: Session<T>, verdict: Option<ErrorCode>)
    requires SessionOk(s)
    ensures SessionOk(ReaderNexts(s, verdict)) && Grows(s, ReaderNexts(s, verdict))
  {
  }

  /** A pushed item finds its reader waiting, or a channel that is already over. */
  lemma PushKeeps<T(!new)>(s: Session<T>, item: T, verdict: Option<ErrorCode>)
    requires SessionOk(s) && s.pump == AwaitItem
    ensures SessionOk(Pushes(s, item, verdict)) && Grows(s, Pushes(s, item, verdict))
  {
  }

  lemma MoveKeeps<T(!new)>(s: Session<T>, m: Move<T>, t: Session<T>)
    requires SessionOk(s) && Moves(s, m, t)
    ensures SessionOk(t) && Grows(s, t)
  {
    hide Told, Next, Return, Finish, Fail, Push, Take, Grant, Pushes, ReaderNexts, Failing;
    match m
    case ReaderNext(verdict) => NextKeeps(s, verdict);
    case ReaderSettled =>
    case ReaderReturn => ReturnKeeps(s);
    case PumpCredit(failure) => if failure.Some? { FailureKeeps(s, failure.value); }
    case PumpItem(item, failure, verdict) =>
      if failure.Some? { LostItem(s, item, failure.value); } else { PushKeeps(s, item, verdict); }
    case PumpEnd => EndKeeps(s);
    case PumpFails(code) => FailureKeeps(s, code);
    case PumpRefused => FailureKeeps(s, CANCELLED);
    case Cancelled(code) => FailureKeeps(s, code);
  }

  lemma LostItem<T(!new)>(s: Session<T>, item: T, code: ErrorCode)
    requires SessionOk(s) && s.pump == AwaitItem
    ensures
      var t := Dies(s.(produced := s.produced + [item]), code);
      SessionOk(t) && Grows(s, t)
  {
  }

  ghost predicate Run<T(!new)>(xs: seq<Session<T>>, ms: seq<Move<T>>, capacity: nat, failure: Option<ErrorCode>) {
    && |xs| == |ms| + 1 && 0 < capacity <= 256
    && xs[0] == Open(capacity, failure)
    && forall i :: 0 <= i < |ms| ==> Moves(xs[i], ms[i], xs[i + 1])
  }

  lemma {:induction false} RunKeeps<T(!new)>(xs: seq<Session<T>>, ms: seq<Move<T>>, capacity: nat, failure: Option<ErrorCode>, i: nat)
    requires Run(xs, ms, capacity, failure) && i < |xs|
    ensures SessionOk(xs[i]) && xs[i].capacity == capacity
  {
    hide SessionOk, Moves;
    if i == 0 {
      OpenOk<T>(capacity, failure);
    } else {
      RunKeeps(xs, ms, capacity, failure, i - 1);
      MoveKeeps(xs[i - 1], ms[i - 1], xs[i - 1 + 1]);
    }
  }

  /** In every run of a stream, however the steps interleave: the provider is never
      asked for more than the reader asked for; nothing is ever buffered, so the channel
      cannot overflow; no grant throws; what the reader got is what the provider
      produced, in order and without a gap; and the terminal callback has run once if
      the channel ended and not otherwise. */
  lemma StreamIsSafe<T(!new)>(xs: seq<Session<T>>, ms: seq<Move<T>>, capacity: nat, failure: Option<ErrorCode>, i: nat)
    requires Run(xs, ms, capacity, failure) && i < |xs|
    ensures xs[i].pulls <= xs[i].requests
    ensures xs[i].chan.queue == [] && !xs[i].overflowed && !xs[i].misgranted
    ensures xs[i].delivered <= xs[i].produced
    ensures xs[i].chan.terminals == (if xs[i].chan.ended then 1 else 0)
  {
    RunKeeps(xs, ms, capacity, failure, i);
  }

  /** A waiting reader always has a pump at work for it: a credit
      in hand or the provider busy with its item. */
  lemma NobodyWaitsInVain<T(!new)>(xs: seq<Session<T>>, ms: seq<Move<T>>, capacity: nat, failure: Option<ErrorCode>, i: nat)
    requires Run(xs, ms, capacity, failure) && i < |xs|
    requires xs[i].chan.waiting
    ensures xs[i].pump == HasCredit || xs[i].pump == AwaitItem
  {
    RunKeeps(xs, ms, capacity, failure, i);
  }

  // ---------------------------------------------------------- a stream that goes well

  /** The call of a reader that has no other: it is answered at once when the channel is
      over, and waits with a credit of its own otherwise, waking the pump if that waits. */
  lemma ReadsExactlyOnce<T(!new)>(s: Session<T>, verdict: Option<ErrorCode>)
    requires SessionOk(s) && !s.reading
    ensures
      var t := ReaderNexts(s, verdict);
      && t.reading && t.requests == s.requests + 1
      && (s.chan.done ==> !t.chan.waiting && t.chan.ended && t.delivered == s.delivered)
      && (!s.chan.done ==>
            && t.chan == s.chan.(waiting := true) && t.pump == (if s.pump == AwaitCredit then HasCredit else s.pump)
            && t.credits.credit + InHand(t.pump) == 1)
  {
  }

  /** Nobody waits: k items have been delivered and the pump waits for credit. */
  function Resting<T>(items: seq<T>, k: nat, capacity: nat): Session<T>
    requires k <= |items|
  {
    Session(NewChan(), Credits(0, false, true, capacity), AwaitCredit, false, capacity, k, k, items[..k], items[..k], false, false)
  }

  function Asked<T>(items: seq<T>, k: nat, capacity: nat, pump: Pump): Session<T>
    requires k <= |items|
  {
    Session(NewChan().(waiting := true), Credits(0, false, false, capacity), pump, true, capacity,
            if pump == AwaitItem then k + 1 else k, k + 1, items[..k], items[..k], false, false)
  }

  ghost predicate Reached<T(!new)>(t: Session<T>, capacity: nat) {
    exists xs, ms :: Run(xs, ms, capacity, None) && xs[|ms|] == t
  }

  lemma Reaches<T(!new)>(s: Session<T>, m: Move<T>, t: Session<T>, capacity: nat)
    requires Reached(s, capacity) && Moves(s, m, t)
    ensures Reached(t, capacity)
  {
    hide Moves, Open;
    var xs, ms :| Run(xs, ms, capacity, None) && xs[|ms|] == s;
    var more, done := xs + [t], ms + [m];
    forall i | 0 <= i < |done|
      ensures Moves(more[i], done[i], more[i + 1])
    {
      assert i < |ms| ==> Moves(xs[i], ms[i], xs[i + 1]);
    }
    assert Run(more, done, capacity, None);
  }

  lemma StartsResting<T(!new)>(items: seq<T>, capacity: nat)
    requires 0 < capacity <= 256
    ensures Reached(Resting(items, 0, capacity), capacity)
  {
    var s := Resting(items, 0, capacity);
    assert Open<T>(capacity, None) == s;
    assert Run([s], [], capacity, None);
  }

  /** A reader asks and the provider is asked. */
  lemma ProviderAsked<T(!new)>(items: seq<T>, k: nat, capacity: nat)
    requires k <= |items| && 0 < capacity <= 256 && Reached(Resting(items, k, capacity), capacity)
    ensures Reached(Asked(items, k, capacity, AwaitItem), capacity)
  {
    hide Reached;
    var s := Resting(items, k, capacity);
    var t := Asked(items, k, capacity, HasCredit);
    assert items[..k] + [] == items[..k];
    assert ReaderNexts(s, None) == t;
    Reaches(s, ReaderNext(None), t, capacity);
    Reaches(t, PumpCredit(None), Asked(items, k, capacity, AwaitItem), capacity);
  }

  lemma OneMoreItem<T(!new)>(items: seq<T>, k: nat, capacity: nat)
    requires k < |items| && 0 < capacity <= 256 && Reached(Resting(items, k, capacity), capacity)
    ensures Reached(Resting(items, k + 1, capacity), capacity)
  {
    hide Reached;
    ProviderAsked(items, k, capacity);
    var s := Asked(items, k, capacity, AwaitItem);
    var t := Resting(items, k + 1, capacity).(reading := true);
    assert items[..k] + [items[k]] == items[..k + 1];
    assert Pushes(s, items[k], None) == t;
    Reaches(s, PumpItem(items[k], None, None), t, capacity);
    Reaches(t, ReaderSettled, Resting(items, k + 1, capacity), capacity);
  }

  lemma {:induction false} AllItems<T(!new)>(items: seq<T>, k: nat, capacity: nat)
    requires k <= |items| && 0 < capacity <= 256
    ensures Reached(Resting(items, k, capacity), capacity)
  {
    hide Reached;
    if k == 0 {
      StartsResting(items, capacity);
    } else {
      AllItems(items, k - 1, capacity);
      OneMoreItem(items, k - 1, capacity);
    }
  }

  /** Whatever a provider has to give, a reader that keeps asking gets all of it, one
      request for each item and one for the end, and then the end. */
  lemma StreamDelivers<T(!new)>(items: seq<T>, capacity: nat) returns (t: Session<T>)
    requires 0 < capacity <= 256
    ensures Reached(t, capacity)
    ensures t.delivered == items == t.produced && t.chan.ended && t.chan.error.None?
    ensures t.requests == t.pulls == |items| + 1 && t.credits.closed && t.pump == Over
  {
    hide Reached;
    AllItems(items, |items|, capacity);
    ProviderAsked(items, |items|, capacity);
    var s := Asked(items, |items|, capacity, AwaitItem);
    t := Told(s, Finish(s.chan).0).(pump := Over);
    assert items[..|items|] == items;
    Reaches(s, PumpEnd, t, capacity);
  }
}
