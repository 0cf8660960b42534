/** The bounded single-reader channel and the credit window, each as a value and as the
    object that refines it. */
module Channels {
  import opened Core

  // ----------------------------------------------------------------- channel

  /** `terminals` and `abandons` count the calls of the two callbacks. */
  datatype Chan<T> = Chan(
    queue: seq<T>,
    done: bool,
    ended: bool,
    error: Option<ErrorCode>,
    waiting: bool,
    terminals: nat,
    abandons: nat)

  function NewChan<T>(): Chan<T> {
    Chan([], false, false, None, false, 0, 0)
  }

  /** What a reader's promise settles with; Nothing when it does not settle now. */
  datatype Reply<T> = Nothing | Item(value: T) | Finished | Threw(code: ErrorCode)

  function Terminate<T>(c: Chan<T>): Chan<T> {
    c.(ended := true, waiting := false, terminals := c.terminals + 1)
  }

  function Fail<T>(c: Chan<T>, code: ErrorCode): (Chan<T>, Reply<T>) {
    if c.ended || c.error.Some? then (c, Nothing)
    else
      var failed := c.(done := true, queue := [], error := Some(code), abandons := c.abandons + 1);
      if c.waiting then (Terminate(failed), Threw(code)) else (failed, Nothing)
  }

  /** `verdict` is what the validator throws, if it does. */
  function Push<T>(c: Chan<T>, capacity: nat, value: T, verdict: Option<ErrorCode>): (Chan<T>, Reply<T>, bool) {
    if c.done || c.ended then (c, Nothing, false)
    else if c.waiting then
      var idle := c.(waiting := false);
      if verdict.None? then (idle, Item(value), true)
      else (Terminate(Fail(idle, verdict.value).0), Threw(verdict.value), false)
    else if |c.queue| >= capacity then (Fail(c, RESOURCE_EXHAUSTED).0, Nothing, false)
    else (c.(queue := c.queue + [value]), Nothing, true)
  }

  function Finish<T>(c: Chan<T>): (Chan<T>, Reply<T>) {
    if c.done || c.ended then (c, Nothing)
    else if c.waiting then (Terminate(c.(done := true)), Finished)
    else (c.(done := true), Nothing)
  }

  /** The caller's own promise: Nothing means it now waits. */
  function Next<T>(c: Chan<T>, verdict: Option<ErrorCode>): (Chan<T>, Reply<T>) {
    if c.ended then (c, Finished)
    else if c.error.Some? then (Terminate(c), Threw(c.error.value))
    else if c.queue != [] then
      var rest := c.(queue := c.queue[1..]);
      if verdict.None? then (rest, Item(c.queue[0]))
      else
        var failed := Fail(rest, verdict.value).0;
        if failed.ended || failed.error.None? then (failed, Finished) else (Terminate(failed), Threw(failed.error.value))
    else if c.done then (Terminate(c), Finished)
    else if c.waiting then (c, Threw(FAILED_PRECONDITION))
    else (c.(waiting := true), Nothing)
  }

  /** `return`; the reply goes to a reader that was waiting. */
  function Return<T>(c: Chan<T>): (Chan<T>, Reply<T>) {
    if c.ended then (c, Nothing)
    else (Terminate(c.(queue := [], done := true, abandons := c.abandons + 1)), if c.waiting then Finished else Nothing)
  }

  ghost predicate ChanOk<T>(c: Chan<T>, capacity: nat) {
    && |c.queue| <= capacity
    && c.terminals == (if c.ended then 1 else 0)
    && (c.waiting ==> c.queue == [] && !c.done && !c.ended)
    && (c.ended ==> c.done && c.queue == [])
    && (c.error.Some? ==> c.done && c.queue == [] && c.abandons > 0)
  }

  /** Whatever the channel is asked, it never holds more than its capacity and its
      terminal callback has run exactly once if it has ended and never otherwise. */
  lemma ChannelKeeps<T>(c: Chan<T>, capacity: nat, value: T, verdict: Option<ErrorCode>, code: ErrorCode)
    requires ChanOk(c, capacity)
    ensures ChanOk(Push(c, capacity, value, verdict).0, capacity)
    ensures ChanOk(Finish(c).0, capacity)
    ensures ChanOk(Fail(c, code).0, capacity)
    ensures ChanOk(Next(c, verdict).0, capacity)
    ensures ChanOk(Return(c).0, capacity)
  {
  }

  // ------------------------------------------------------------ the channel in use

  datatype Ask<T> = Pushes(value: T, verdict: Option<ErrorCode>) | Finishes | Fails(code: ErrorCode) | Nexts(verdict: Option<ErrorCode>) | Returns

  /** A channel with its history: the values it took in, how often a reader asked, and
      every answer readers got, in order. */
  datatype Log<T> = Log(chan: Chan<T>, accepted: seq<T>, asked: nat, answers: seq<Reply<T>>)

  function Answering<T(==)>(l: Log<T>, c: Chan<T>, reply: Reply<T>): Log<T> {
    l.(chan := c, answers := if reply == Nothing then l.answers else l.answers + [reply])
  }

  function Does<T(==)>(l: Log<T>, capacity: nat, ask: Ask<T>): Log<T> {
    match ask
    case Pushes(value, verdict) =>
      var (c, reply, open) := Push(l.chan, capacity, value, verdict);
      Answering(l, c, reply).(accepted := if open then l.accepted + [value] else l.accepted)
    case Finishes => Answering(l, Finish(l.chan).0, Finish(l.chan).1)
    case Fails(code) => Answering(l, Fail(l.chan, code).0, Fail(l.chan, code).1)
    case Nexts(verdict) => Answering(l, Next(l.chan, verdict).0, Next(l.chan, verdict).1).(asked := l.asked + 1)
    case Returns => Answering(l, Return(l.chan).0, Return(l.chan).1)
  }

  /** The values among the answers. */
  ghost function Values<T>(answers: seq<Reply<T>>): seq<T> {
    if answers == [] then []
    else
      var n := |answers| - 1;
      Values(answers[..n]) + if answers[n].Item? then [answers[n].value] else []
  }

  ghost predicate LogOk<T>(l: Log<T>, capacity: nat) {
    && ChanOk(l.chan, capacity)
    && l.asked == |l.answers| + (if l.chan.waiting then 1 else 0)
    && Values(l.answers) <= l.accepted
    && (l.chan.abandons == 0 ==> l.accepted == Values(l.answers) + l.chan.queue)
    && (l.chan.abandons > 0 ==> l.chan.done && (l.chan.ended || l.chan.error.Some?))
    && (Finished in l.answers ==> l.chan.ended)
    && !(Nothing in l.answers)
  }

  lemma ValuesNext<T>(answers: seq<Reply<T>>, reply: Reply<T>)
    ensures Values(answers + [reply]) == Values(answers) + if reply.Item? then [reply.value] else []
  {
    assert (answers + [reply])[..|answers|] == answers;
  }

  lemma DoesKeeps<T>(l: Log<T>, capacity: nat, ask: Ask<T>)
    requires LogOk(l, capacity)
    ensures LogOk(Does(l, capacity, ask), capacity)
  {
    hide Values;
    var m := Does(l, capacity, ask);
    if m.answers != l.answers {
      ValuesNext(l.answers, m.answers[|l.answers|]);
    }
    match ask
    case Pushes(value, verdict) => PushTraces(l, capacity, value, verdict);
    case Nexts(verdict) => NextTraces(l, capacity, verdict);
    case _ =>
  }

  lemma PushTraces<T>(l: Log<T>, capacity: nat, value: T, verdict: Option<ErrorCode>)
    requires LogOk(l, capacity)
    ensures LogOk(Does(l, capacity, Pushes(value, verdict)), capacity)
  {
    hide Values;
    var m := Does(l, capacity, Pushes(value, verdict));
    assert Values(l.answers) + (l.chan.queue + [value]) == Values(l.answers) + l.chan.queue + [value];
    assert Values(l.answers) + [] == Values(l.answers);
    if m.answers != l.answers {
      ValuesNext(l.answers, m.answers[|l.answers|]);
    }
  }

  lemma NextTraces<T>(l: Log<T>, capacity: nat, verdict: Option<ErrorCode>)
    requires LogOk(l, capacity)
    ensures LogOk(Does(l, capacity, Nexts(verdict)), capacity)
  {
    hide Values;
    var m := Does(l, capacity, Nexts(verdict));
    if l.chan.queue != [] {
      assert l.chan.queue == [l.chan.queue[0]] + l.chan.queue[1..];
      assert Values(l.answers) + ([l.chan.queue[0]] + l.chan.queue[1..]) == Values(l.answers) + [l.chan.queue[0]] + l.chan.queue[1..];
    }
    if m.answers != l.answers {
      ValuesNext(l.answers, m.answers[|l.answers|]);
    }
  }

  ghost predicate Uses<T>(ls: seq<Log<T>>, asks: seq<Ask<T>>, capacity: nat) {
    && |ls| == |asks| + 1 && ls[0] == Log(NewChan(), [], 0, [])
    && forall i :: 0 <= i < |asks| ==> ls[i + 1] == Does(ls[i], capacity, asks[i])
  }

  /** In any use of a channel: values come out in the order they went in, none twice and
      none passed over; every call of a reader is answered once, except the last one while
      it waits; a reader is told of the end only when the channel is over, and unless the
      channel was failed or abandoned it has by then been given everything. */
  lemma {:induction false} ReadersAreServed<T>(ls: seq<Log<T>>, asks: seq<Ask<T>>, capacity: nat, i: nat)
    requires Uses(ls, asks, capacity) && i < |ls|
    ensures LogOk(ls[i], capacity)
    ensures Finished in ls[i].answers && ls[i].chan.abandons == 0 ==> Values(ls[i].answers) == ls[i].accepted
  {
    hide Does, Values;
    if i > 0 {
      ReadersAreServed(ls, asks, capacity, i - 1);
      assert ls[i - 1 + 1] == Does(ls[i - 1], capacity, asks[i - 1]);
      DoesKeeps(ls[i - 1], capacity, asks[i - 1]);
    } else {
      assert LogOk(ls[0], capacity) by { NothingAsked<T>(capacity); }
    }
  }

  lemma NothingAsked<T>(capacity: nat)
    ensures LogOk(Log(NewChan<T>(), [], 0, []), capacity)
  {
  }

  /** A push is taken in exactly while the channel is not done and either a reader waits
      and the value is valid, or nobody waits and there is room. It answers the reader
      that waits; what is not taken in ends the channel with the reason. */
  lemma PushesExactly<T>(c: Chan<T>, capacity: nat, value: T, verdict: Option<ErrorCode>)
    requires ChanOk(c, capacity)
    ensures
      var (d, reply, open) := Push(c, capacity, value, verdict);
      && (open <==> !c.done && if c.waiting then verdict.None? else |c.queue| < capacity)
      && (open && !c.waiting ==> d == c.(queue := c.queue + [value]))
      && (open && c.waiting ==> d == c.(waiting := false))
      && (!open && !c.done ==> d.done && d.queue == [] && d.error == Some(if c.waiting then verdict.value else RESOURCE_EXHAUSTED))
      && (c.done ==> d == c)
      && reply == (if !c.waiting then Nothing else if open then Item(value) else Threw(verdict.value))
  {
  }

  /** The end and a failure reach a reader that waits at once and any other in its turn;
      neither undoes an earlier one. */
  lemma EndsExactly<T>(c: Chan<T>, capacity: nat, code: ErrorCode)
    requires ChanOk(c, capacity)
    ensures
      var (d, reply) := Finish(c);
      && d.done && d.queue == c.queue && d.error == c.error && (c.done ==> d == c)
      && reply == (if c.waiting then Finished else Nothing) && (d.ended <==> c.ended || c.waiting)
    ensures
      var (d, reply) := Fail(c, code);
      && (c.ended || c.error.Some? ==> d == c)
      && (!c.ended && c.error.None? ==> d.done && d.queue == [] && d.error == Some(code) && d.abandons == c.abandons + 1)
      && reply == (if c.waiting then Threw(code) else Nothing) && (d.ended <==> c.ended || c.waiting)
    ensures
      var (d, reply) := Return(c);
      && d.ended && d.done && d.queue == [] && (c.ended ==> d == c)
      && (!c.ended ==> d.abandons == c.abandons + 1) && reply == (if c.waiting then Finished else Nothing)
  {
  }

  /** A read gets, in this order: the end if that has been told, the failure, the oldest
      value or what is wrong with it, the end; else it waits, one at a time. */
  lemma ReadsExactly<T>(c: Chan<T>, capacity: nat, verdict: Option<ErrorCode>)
    requires ChanOk(c, capacity)
    ensures
      var (d, reply) := Next(c, verdict);
      if c.ended then reply == Finished && d == c
      else if c.error.Some? then reply == Threw(c.error.value) && d.ended
      else if |c.queue| > 0 && verdict.None? then reply == Item(c.queue[0]) && d == c.(queue := c.queue[1..])
      else if |c.queue| > 0 then reply == Threw(verdict.value) && d.ended && d.error == verdict
      else if c.done then reply == Finished && d.ended && d.abandons == c.abandons
      else if c.waiting then reply == Threw(FAILED_PRECONDITION) && d == c
      else reply == Nothing && d == c.(waiting := true)
  {
  }

  /** The object: callbacks are counted, and a settled promise is a reply. */
  class BoundedChannel<T(0)> {
    const capacity: nat
    var queue: seq<T>
    var done: bool
    var ended: bool
    var error: Option<ErrorCode>
    var waiting: bool
    var terminals: nat
    var abandons: nat

    ghost function View(): Chan<T>
      reads this
    {
      Chan(queue, done, ended, error, waiting, terminals, abandons)
    }

    ghost predicate Valid()
      reads this
    {
      0 < capacity <= 256 && ChanOk(View(), capacity)
    }

    constructor (limit: nat)
      requires 0 < limit <= 256
      ensures Valid() && View() == NewChan() && capacity == limit
    {
      capacity, queue, done, ended, error, waiting, terminals, abandons := limit, [], false, false, None, false, 0, 0;
    }

    method End()
      modifies this
      ensures View() == Terminate(old(View()))
    {
      ended, waiting := true, false;
      terminals := terminals + 1;
    }

    method PushValue(value: T, verdict: Option<ErrorCode>) returns (reply: Reply<T>, open: bool)
      requires Valid()
      modifies this
      ensures Valid() && (View(), reply, open) == Push(old(View()), capacity, value, verdict)
    {
      if done || ended {
        return Nothing, false;
      }
      if waiting {
        waiting := false;
        if verdict.None? {
          return Item(value), true;
        }
        var none := FailWith(verdict.value);
        End();
        return Threw(verdict.value), false;
      }
      if |queue| >= capacity {
        reply := FailWith(RESOURCE_EXHAUSTED);
        return Nothing, false;
      }
      queue := queue + [value];
      return Nothing, true;
    }

    method FinishAll() returns (reply: Reply<T>)
      requires Valid()
      modifies this
      ensures Valid() && (View(), reply) == Finish(old(View()))
    {
      if done || ended {
        return Nothing;
      }
      done := true;
      if waiting {
        End();
        return Finished;
      }
      return Nothing;
    }

    method FailWith(code: ErrorCode) returns (reply: Reply<T>)
      modifies this
      ensures (View(), reply) == Fail(old(View()), code)
      ensures old(Valid()) ==> Valid()
    {
      if ended || error.Some? {
        return Nothing;
      }
      done, queue, error := true, [], Some(code);
      abandons := abandons + 1;
      if waiting {
        End();
        return Threw(code);
      }
      return Nothing;
    }

    method NextValue(verdict: Option<ErrorCode>) returns (reply: Reply<T>)
      requires Valid()
      modifies this
      ensures Valid() && (View(), reply) == Next(old(View()), verdict)
      decreases |queue|
    {
      if ended {
        return Finished;
      }
      if error.Some? {
        End();
        return Threw(error.value);
      }
      if queue != [] {
        var head := queue[0];
        queue := queue[1..];
        if verdict.None? {
          return Item(head);
        }
        var none := FailWith(verdict.value);
        reply := NextValue(None);
        return;
      }
      if done {
        End();
        return Finished;
      }
      if waiting {
        return Threw(FAILED_PRECONDITION);
      }
      waiting := true;
      return Nothing;
    }

    method ReturnAll() returns (reply: Reply<T>)
      requires Valid()
      modifies this
      ensures Valid() && (View(), reply) == Return(old(View()))
    {
      if ended {
        return Nothing;
      }
      reply := if waiting then Finished else Nothing;
      queue, done := [], true;
      abandons := abandons + 1;
      End();
    }
  }

  // ------------------------------------------------------------------ credit

  datatype Credits = Credits(credit: nat, closed: bool, waiting: bool, maximum: nat)

  /** A grant either throws or may wake the taker. */
  function Grant(w: Credits, count: int): Result<(Credits, bool)> {
    if w.closed then Err(FAILED_PRECONDITION)
    else if !(count > 0 && w.credit + count <= w.maximum) then Err(RESOURCE_EXHAUSTED)
    else if w.waiting then Ok((w.(credit := w.credit + count - 1, waiting := false), true))
    else Ok((w.(credit := w.credit + count), false))
  }

  /** Ok(true): a credit was taken; Ok(false): the taker waits. */
  function Take(w: Credits): Result<(Credits, bool)> {
    if w.closed then Err(CANCELLED)
    else if w.credit > 0 then Ok((w.(credit := w.credit - 1), true))
    else if w.waiting then Err(FAILED_PRECONDITION)
    else Ok((w.(waiting := true), false))
  }

  /** A taker that was waiting is rejected. */
  function Shut(w: Credits): (Credits, bool) {
    if w.closed then (w, false) else (w.(closed := true, credit := 0, waiting := false), w.waiting)
  }

  datatype CreditAsk = Grants(count: int) | Asks | Closes

  /** A window with its history: credits granted, credits taken, calls of the taker and
      how many of them have been answered. */
  datatype Tally = Tally(w: Credits, granted: nat, taken: nat, asked: nat, answered: nat)

  function Spends(l: Tally, ask: CreditAsk): Tally {
    match ask
    case Grants(count) =>
      (match Grant(l.w, count)
       case Err(_) => l
       case Ok((w, woke)) =>
         l.(w := w, granted := l.granted + if count > 0 then count else 0, taken := l.taken + if woke then 1 else 0,
            answered := l.answered + if woke then 1 else 0))
    case Asks =>
      (match Take(l.w)
       case Err(_) => l.(asked := l.asked + 1, answered := l.answered + 1)
       case Ok((w, taken)) =>
         l.(w := w, asked := l.asked + 1, taken := l.taken + if taken then 1 else 0, answered := l.answered + if taken then 1 else 0))
    case Closes => l.(w := Shut(l.w).0, answered := l.answered + if Shut(l.w).1 then 1 else 0)
  }

  ghost predicate CreditOk(w: Credits) {
    w.credit <= w.maximum && w.maximum > 0 && (w.waiting ==> w.credit == 0 && !w.closed) && (w.closed ==> w.credit == 0)
  }

  ghost predicate TallyOk(l: Tally) {
    && CreditOk(l.w)
    && (if l.w.closed then l.taken <= l.granted else l.granted == l.taken + l.w.credit)
    && l.asked == l.answered + if l.w.waiting then 1 else 0
  }

  /** Credits are neither made nor lost: while the window is open those granted are those
      taken and those left, and every call of the taker is answered once, except one that
      waits. */
  lemma SpendingKeeps(l: Tally, ask: CreditAsk)
    requires TallyOk(l)
    ensures TallyOk(Spends(l, ask)) && l.taken <= Spends(l, ask).taken
  {
  }

  /** When each call succeeds, and what it changes. */
  lemma CreditExactly(w: Credits, count: int)
    requires CreditOk(w)
    ensures Grant(w, count).Ok? <==> !w.closed && count > 0 && w.credit + count <= w.maximum
    ensures Grant(w, count).Ok? ==>
      Grant(w, count).value == (w.(credit := w.credit + count - (if w.waiting then 1 else 0), waiting := false), w.waiting)
    ensures Grant(w, count).Err? ==> Grant(w, count).code == if w.closed then FAILED_PRECONDITION else RESOURCE_EXHAUSTED
    ensures Take(w) ==
      if w.closed then Err(CANCELLED)
      else if w.waiting then Err(FAILED_PRECONDITION)
      else if w.credit == 0 then Ok((w.(waiting := true), false))
      else Ok((w.(credit := w.credit - 1), true))
    ensures Shut(w).0.closed && Shut(w).0.credit == 0 && !Shut(w).0.waiting && Shut(w).1 == w.waiting
  {
  }

  class CreditWindow {
    const maximum: nat
    var credit: nat
    var closed: bool
    var waiting: bool

    ghost function View(): Credits
      reads this
    {
      Credits(credit, closed, waiting, maximum)
    }

    ghost predicate Valid()
      reads this
    {
      0 < maximum <= 256 && credit <= maximum && (waiting ==> credit == 0 && !closed) && (closed ==> credit == 0)
    }

    constructor (limit: nat)
      requires 0 < limit <= 256
      ensures Valid() && View() == Credits(0, false, false, limit)
    {
      maximum, credit, closed, waiting := limit, 0, false, false;
    }

    method GrantMore(count: int) returns (r: Result<bool>)
      requires Valid()
      modifies this
      ensures Valid()
      ensures
        match Grant(old(View()), count)
        case Ok((w, woke)) => r == Ok(woke) && View() == w
        case Err(code) => r == Err(code) && View() == old(View())
    {
      if closed {
        return Err(FAILED_PRECONDITION);
      }
      if !(count > 0 && credit + count <= maximum) {
        return Err(RESOURCE_EXHAUSTED);
      }
      credit := credit + count;
      if waiting {
        waiting := false;
        credit := credit - 1;
        return Ok(true);
      }
      return Ok(false);
    }

    method TakeOne() returns (r: Result<bool>)
      requires Valid()
      modifies this
      ensures Valid()
      ensures
        match Take(old(View()))
        case Ok((w, taken)) => r == Ok(taken) && View() == w
        case Err(code) => r == Err(code) && View() == old(View())
    {
      if closed {
        return Err(CANCELLED);
      }
      if credit > 0 {
        credit := credit - 1;
        return Ok(true);
      }
      if waiting {
        return Err(FAILED_PRECONDITION);
      }
      waiting := true;
      return Ok(false);
    }

    method CloseAll() returns (rejected: bool)
      requires Valid()
      modifies this
      ensures Valid() && (View(), rejected) == Shut(old(View()))
    {
      if closed {
        return false;
      }
      closed, credit := true, 0;
      rejected := waiting;
      waiting := false;
    }
  }
}
