/** The dependency order of a profile: a depth-first walk over what each plugin needs,
    and the lock that comes out of it. */
module Plans {
  import opened Core
  import opened Texts

  datatype Pick = Pick(provider: Text, version: Text)

  /** One entry of `requires` and what `resolve` answers for it: a provider, NOT_FOUND
      when it selects none, or the error it throws. */
  datatype Need = Need(capability: Text, choice: Result<Pick>)

  /** The selected plugins by id, each with its needs in manifest order. */
  type Graph = map<Text, seq<Need>>

  datatype Binding = Binding(scope: Text, consumer: Text, capability: Text, provider: Text, version: Text)

  /** Resolution only ever selects among the profile's own plugins. */
  ghost predicate Inside(g: Graph) {
    forall i, k :: i in g && 0 <= k < |g[i]| && g[i][k].choice.Ok? ==> g[i][k].choice.value.provider in g
  }

  datatype Progress = Progress(visited: set<Text>, order: seq<Text>, bindings: seq<Binding>)

  const START := Progress({}, [], [])

  function Bind(root: Text, i: Text, n: Need): Binding
    requires n.choice.Ok?
  {
    Binding(root, i, n.capability, n.choice.value.provider, n.choice.value.version)
  }

  /** `visit`. */
  function Visit(g: Graph, root: Text, i: Text, visiting: set<Text>, p: Progress): Result<Progress>
    requires i in g && visiting <= g.Keys
    decreases |g.Keys - visiting|, 0, 0
  {
    if i in visiting then Err(CONFLICT)
    else if i in p.visited then Ok(p)
    else
      Less1(g.Keys, visiting, i);
      var done :- VisitNeeds(g, root, i, 0, visiting + {i}, p);
      Ok(Progress(done.visited + {i}, done.order + [i], done.bindings))
  }

  function VisitNeeds(g: Graph, root: Text, i: Text, k: nat, visiting: set<Text>, p: Progress): Result<Progress>
    requires i in g && visiting <= g.Keys && k <= |g[i]|
    decreases |g.Keys - visiting|, 1, |g[i]| - k
  {
    if k == |g[i]| then Ok(p)
    else match g[i][k].choice
      case Err(code) => Err(code)
      case Ok(pick) =>
        if pick.provider !in g then Err(NOT_FOUND)
        else
          var below :- Visit(g, root, pick.provider, visiting, p);
          VisitNeeds(g, root, i, k + 1, visiting, below.(bindings := below.bindings + [Bind(root, i, g[i][k])]))
  }

  lemma Less1(all: set<Text>, some: set<Text>, i: Text)
    requires i in all && i !in some
    ensures |all - (some + {i})| < |all - some|
  {
    assert all - some == (all - (some + {i})) + {i};
  }

  function VisitAll(g: Graph, root: Text, roots: seq<Text>, p: Progress): Result<Progress>
    requires forall i :: i in roots ==> i in g
  {
    if roots == [] then Ok(p)
    else
      var q :- Visit(g, root, roots[0], {}, p);
      VisitAll(g, root, roots[1..], q)
  }

  // ------------------------------------------------------------- what is kept

  ghost predicate Distinct(s: seq<Text>) {
    forall i: nat, j: nat :: i < j < |s| ==> s[i] != s[j]
  }

  /** Everything i needs stands in this order already. */
  ghost predicate Served(g: Graph, i: Text, before: seq<Text>)
    requires i in g
  {
    forall k: nat :: k < |g[i]| ==> g[i][k].choice.Ok? && g[i][k].choice.value.provider in before
  }

  /** The order lists what was visited, once, every provider before its consumers. */
  ghost predicate OrderOk(g: Graph, p: Progress) {
    && Distinct(p.order)
    && (forall i :: i in p.order <==> i in p.visited)
    && p.visited <= g.Keys
    && (forall n: nat :: n < |p.order| ==> p.order[n] in g && Served(g, p.order[n], p.order[..n]))
  }

  ghost function Of(bindings: seq<Binding>, i: Text): seq<Binding> {
    if bindings == [] then []
    else
      var last := bindings[|bindings| - 1];
      Of(bindings[..|bindings| - 1], i) + if last.consumer == i then [last] else []
  }

  /** What the lock should say of i: its needs, in manifest order. */
  ghost function Due(g: Graph, root: Text, i: Text, k: nat): seq<Binding>
    requires i in g && k <= |g[i]| && forall n :: 0 <= n < k ==> g[i][n].choice.Ok?
  {
    seq(k, n requires 0 <= n < k => Bind(root, i, g[i][n]))
  }

  ghost predicate AllChosen(g: Graph, i: Text)
    requires i in g
  {
    forall k :: 0 <= k < |g[i]| ==> g[i][k].choice.Ok?
  }

  /** Visited plugins have all their bindings, plugins not reached yet have none. */
  ghost predicate BindingsOk(g: Graph, root: Text, visiting: set<Text>, p: Progress) {
    && (forall i :: i in p.visited ==> i in g && AllChosen(g, i) && Of(p.bindings, i) == Due(g, root, i, |g[i]|))
    && (forall i :: i !in p.visited && i !in visiting ==> Of(p.bindings, i) == [])
  }

  lemma OrderAppend(g: Graph, p: Progress, i: Text)
    requires OrderOk(g, p) && i in g && i !in p.visited && Served(g, i, p.order)
    ensures OrderOk(g, p.(visited := p.visited + {i}, order := p.order + [i]))
  {
    hide Served;
    var q := p.order + [i];
    forall n: nat | n < |q|
      ensures q[n] in g && Served(g, q[n], q[..n])
    {
      assert n < |p.order| ==> q[..n] == p.order[..n] && q[n] == p.order[n];
      assert n == |p.order| ==> q[..n] == p.order;
    }
  }

  lemma OfAppend(bindings: seq<Binding>, b: Binding, i: Text)
    ensures Of(bindings + [b], i) == Of(bindings, i) + if b.consumer == i then [b] else []
  {
    assert (bindings + [b])[..|bindings|] == bindings;
  }

  /** What one visit may do to the progress made so far. */
  ghost predicate Advances(visiting: set<Text>, p: Progress, q: Progress) {
    && p.visited <= q.visited && p.order <= q.order
    && q.visited * visiting == p.visited * visiting
    && (forall i :: i in visiting ==> Of(q.bindings, i) == Of(p.bindings, i))
  }

  lemma {:induction false} VisitKeeps(g: Graph, root: Text, i: Text, visiting: set<Text>, p: Progress)
    requires i in g && visiting <= g.Keys && OrderOk(g, p) && BindingsOk(g, root, visiting, p) && p.visited !! visiting
    requires Visit(g, root, i, visiting, p).Ok?
    ensures
      var q := Visit(g, root, i, visiting, p).value;
      OrderOk(g, q) && BindingsOk(g, root, visiting, q) && Advances(visiting, p, q) && i in q.visited && q.visited !! visiting
    decreases |g.Keys - visiting|, 0, 0
  {
    hide OrderOk, Served, BindingsOk, Of, Due, VisitNeeds;
    if i !in p.visited {
      Less1(g.Keys, visiting, i);
      NothingDue(g, root, i, visiting, p);
      NeedsKeep(g, root, i, 0, visiting + {i}, p);
      var done := VisitNeeds(g, root, i, 0, visiting + {i}, p).value;
      OrderAppend(g, done, i);
      NowDone(g, root, i, visiting, done);
    }
  }

  lemma NothingDue(g: Graph, root: Text, i: Text, visiting: set<Text>, p: Progress)
    requires i in g && BindingsOk(g, root, visiting, p) && i !in p.visited && i !in visiting
    ensures BindingsOk(g, root, visiting + {i}, p)
    ensures Of(p.bindings, i) == Due(g, root, i, 0)
  {
    hide Of;
  }

  lemma NowDone(g: Graph, root: Text, i: Text, visiting: set<Text>, p: Progress)
    requires i in g && BindingsOk(g, root, visiting + {i}, p) && AllChosen(g, i) && Of(p.bindings, i) == Due(g, root, i, |g[i]|)
    ensures BindingsOk(g, root, visiting, p.(visited := p.visited + {i}, order := p.order + [i]))
  {
    hide Of, Due;
  }

  /** The k-th need of i and those after it. */
  lemma {:induction false} NeedsKeep(g: Graph, root: Text, i: Text, k: nat, visiting: set<Text>, p: Progress)
    requires i in visiting && visiting <= g.Keys && k <= |g[i]| && OrderOk(g, p) && BindingsOk(g, root, visiting, p) && p.visited !! visiting
    requires VisitNeeds(g, root, i, k, visiting, p).Ok?
    requires forall n :: 0 <= n < k ==> g[i][n].choice.Ok? && g[i][n].choice.value.provider in p.order
    requires Of(p.bindings, i) == Due(g, root, i, k)
    ensures
      var q := VisitNeeds(g, root, i, k, visiting, p).value;
      && OrderOk(g, q) && BindingsOk(g, root, visiting, q) && Advances(visiting - {i}, p, q) && q.visited !! visiting
      && Served(g, i, q.order) && AllChosen(g, i) && Of(q.bindings, i) == Due(g, root, i, |g[i]|)
    decreases |g.Keys - visiting|, 1, |g[i]| - k
  {
    hide OrderOk, BindingsOk, Of, Due, Visit;
    if k < |g[i]| {
      var pick := g[i][k].choice.value;
      var below := Visit(g, root, pick.provider, visiting, p).value;
      VisitKeeps(g, root, pick.provider, visiting, p);
      var next := below.(bindings := below.bindings + [Bind(root, i, g[i][k])]);
      OneMore(g, root, i, k, visiting, p, below);
      NeedsKeep(g, root, i, k + 1, visiting, next);
    }
  }

  /** The binding of the k-th need goes behind those before it. */
  lemma OneMore(g: Graph, root: Text, i: Text, k: nat, visiting: set<Text>, p: Progress, below: Progress)
    requires i in visiting && visiting <= g.Keys && k < |g[i]| && g[i][k].choice.Ok? && i !in below.visited
    requires OrderOk(g, below) && BindingsOk(g, root, visiting, below) && Advances(visiting, p, below)
    requires forall n :: 0 <= n < k ==> g[i][n].choice.Ok? && g[i][n].choice.value.provider in p.order
    requires Of(p.bindings, i) == Due(g, root, i, k) && g[i][k].choice.value.provider in below.visited
    ensures
      var next := below.(bindings := below.bindings + [Bind(root, i, g[i][k])]);
      && OrderOk(g, next) && BindingsOk(g, root, visiting, next) && Advances(visiting - {i}, p, next)
      && (forall n :: 0 <= n < k + 1 ==> g[i][n].choice.Ok? && g[i][n].choice.value.provider in next.order)
      && Of(next.bindings, i) == Due(g, root, i, k + 1)
  {
    hide Of, Served;
    var b := Bind(root, i, g[i][k]);
    forall c
      ensures Of(below.bindings + [b], c) == Of(below.bindings, c) + if c == i then [b] else []
    {
      OfAppend(below.bindings, b, c);
    }
    assert Due(g, root, i, k + 1) == Due(g, root, i, k) + [b];
    assert below.visited * (visiting - {i}) == below.visited * visiting - {i};
    assert p.visited * (visiting - {i}) == p.visited * visiting - {i};
    assert forall x :: x in p.order ==> x in below.order by { assert below.order == p.order + below.order[|p.order|..]; }
  }

  // ---------------------------------------------------------------- the plan

  /** `plan`'s walk over the profile's plugins. */
  function Walk(g: Graph, root: Text, roots: seq<Text>): Result<Progress>
    requires forall i :: i in roots ==> i in g
  {
    VisitAll(g, root, roots, START)
  }

  lemma StartOk(g: Graph, root: Text)
    ensures OrderOk(g, START) && BindingsOk(g, root, {}, START)
  {
  }

  lemma {:induction false} AllKeep(g: Graph, root: Text, roots: seq<Text>, p: Progress)
    requires forall i :: i in roots ==> i in g
    requires OrderOk(g, p) && BindingsOk(g, root, {}, p) && VisitAll(g, root, roots, p).Ok?
    ensures
      var q := VisitAll(g, root, roots, p).value;
      && OrderOk(g, q) && BindingsOk(g, root, {}, q) && p.visited <= q.visited
      && forall i :: i in roots ==> i in q.visited
  {
    hide OrderOk, BindingsOk, Visit, Of;
    if roots != [] {
      assert roots[0] in roots;
      VisitKeeps(g, root, roots[0], {}, p);
      AllKeep(g, root, roots[1..], Visit(g, root, roots[0], {}, p).value);
      assert forall i :: i in roots ==> i == roots[0] || i in roots[1..];
    }
  }

  ghost predicate Covers(g: Graph, roots: seq<Text>) {
    forall i :: i in roots <==> i in g
  }

  /** A plan that succeeds lists every selected plugin exactly once, each provider before
      all its consumers, and has exactly the bindings each manifest asks for. */
  lemma PlanIsOrdered(g: Graph, root: Text, roots: seq<Text>)
    requires Covers(g, roots) && Walk(g, root, roots).Ok?
    ensures
      var p := Walk(g, root, roots).value;
      && Distinct(p.order) && (forall i :: i in p.order <==> i in g)
      && (forall n: nat :: n < |p.order| ==> p.order[n] in g && Served(g, p.order[n], p.order[..n]))
      && (forall i :: i in g ==> AllChosen(g, i) && Of(p.bindings, i) == Due(g, root, i, |g[i]|))
      && (forall i :: i !in g ==> Of(p.bindings, i) == [])
  {
    hide Visit, Of, Due, Served, VisitAll;
    StartOk(g, root);
    AllKeep(g, root, roots, START);
  }

  // ------------------------------------------------------------------- cycles

  /** The needs have no cycle: some numbering puts every provider below its consumers. */
  ghost predicate Ranked(g: Graph, rank: map<Text, nat>) {
    && g.Keys <= rank.Keys
    && forall i, k :: i in g && 0 <= k < |g[i]| ==>
         && g[i][k].choice.Ok? && g[i][k].choice.value.provider in g
         && rank[g[i][k].choice.value.provider] < rank[i]
  }

  /** A graph with such a numbering is walked to the end from anywhere. */
  lemma {:induction false} RankedVisits(g: Graph, root: Text, rank: map<Text, nat>, i: Text, visiting: set<Text>, p: Progress)
    requires Ranked(g, rank) && i in g && visiting <= g.Keys
    requires forall v :: v in visiting ==> rank[v] > rank[i]
    ensures Visit(g, root, i, visiting, p).Ok?
    decreases |g.Keys - visiting|, 0, 0
  {
    hide VisitNeeds;
    if i !in p.visited {
      Less1(g.Keys, visiting, i);
      RankedNeeds(g, root, rank, i, 0, visiting + {i}, p);
    }
  }

  lemma {:induction false} RankedNeeds(g: Graph, root: Text, rank: map<Text, nat>, i: Text, k: nat, visiting: set<Text>, p: Progress)
    requires Ranked(g, rank) && i in g && i in visiting && visiting <= g.Keys && k <= |g[i]|
    requires forall v :: v in visiting ==> rank[v] >= rank[i]
    ensures VisitNeeds(g, root, i, k, visiting, p).Ok?
    decreases |g.Keys - visiting|, 1, |g[i]| - k
  {
    hide Visit;
    if k < |g[i]| {
      var j := g[i][k].choice.value.provider;
      RankedVisits(g, root, rank, j, visiting, p);
      var below := Visit(g, root, j, visiting, p).value;
      RankedNeeds(g, root, rank, i, k + 1, visiting, below.(bindings := below.bindings + [Bind(root, i, g[i][k])]));
    }
  }

  lemma {:induction false} RankedAll(g: Graph, root: Text, rank: map<Text, nat>, roots: seq<Text>, p: Progress)
    requires Ranked(g, rank) && forall i :: i in roots ==> i in g
    ensures VisitAll(g, root, roots, p).Ok?
  {
    hide Visit;
    if roots != [] {
      assert roots[0] in roots;
      RankedVisits(g, root, rank, roots[0], {}, p);
      RankedAll(g, root, rank, roots[1..], Visit(g, root, roots[0], {}, p).value);
    }
  }

  function Place(order: seq<Text>, i: Text): nat
    requires i in order
  {
    if order[0] == i then 0 else 1 + Place(order[1..], i)
  }

  lemma {:induction false} PlaceFinds(order: seq<Text>, i: Text)
    requires i in order
    ensures Place(order, i) < |order| && order[Place(order, i)] == i
    ensures forall n: nat :: n < |order| && order[n] == i ==> Place(order, i) <= n
  {
    if order[0] != i {
      PlaceFinds(order[1..], i);
    }
  }

  ghost function Ranks(g: Graph, order: seq<Text>): map<Text, nat>
    requires forall i :: i in g ==> i in order
  {
    map i | i in g :: Place(order, i)
  }

  lemma OrderRanks(g: Graph, order: seq<Text>)
    requires forall i :: i in order <==> i in g
    requires forall n: nat :: n < |order| ==> order[n] in g && Served(g, order[n], order[..n])
    requires Inside(g)
    ensures Ranked(g, Ranks(g, order))
  {
    hide Place, Served;
    var rank := Ranks(g, order);
    forall i, k | i in g && 0 <= k < |g[i]|
      ensures g[i][k].choice.Ok? && g[i][k].choice.value.provider in g
      ensures rank[g[i][k].choice.value.provider] < rank[i]
    {
      PlaceFinds(order, i);
      ServedBelow(g, order, i, Place(order, i), k);
    }
  }

  lemma ServedBelow(g: Graph, order: seq<Text>, i: Text, n: nat, k: nat)
    requires i in g && n < |order| && order[n] == i && Served(g, i, order[..n]) && k < |g[i]| && Inside(g)
    ensures
      && g[i][k].choice.Ok? && g[i][k].choice.value.provider in g
      && g[i][k].choice.value.provider in order && Place(order, g[i][k].choice.value.provider) < n
  {
    hide Place;
    var j := g[i][k].choice.value.provider;
    var m: nat :| m < n && order[..n][m] == j;
    assert order[m] == j;
    PlaceFinds(order, j);
  }

  /** The walk succeeds exactly when every need is met and the needs have no cycle. */
  lemma PlansExactlyAcyclic(g: Graph, root: Text, roots: seq<Text>)
    requires Covers(g, roots) && Inside(g)
    ensures Walk(g, root, roots).Ok? <==> exists rank :: Ranked(g, rank)
  {
    hide Ranked, Served, Visit, VisitAll, Of;
    if Walk(g, root, roots).Ok? {
      PlanIsOrdered(g, root, roots);
      OrderRanks(g, Walk(g, root, roots).value.order);
    }
    if rank :| Ranked(g, rank) {
      RankedAll(g, root, rank, roots, START);
    }
  }

  /** What a successful plan binds: for each plugin its needs in manifest order, each to
      the provider and version that were selected for it. */
  lemma BindsWhatIsNeeded(g: Graph, root: Text, roots: seq<Text>, i: Text)
    requires Covers(g, roots) && Walk(g, root, roots).Ok? && i in g
    ensures
      var bs := Of(Walk(g, root, roots).value.bindings, i);
      && |bs| == |g[i]|
      && forall k :: 0 <= k < |bs| ==>
           && bs[k].scope == root && bs[k].consumer == i && bs[k].capability == g[i][k].capability
           && g[i][k].choice == Ok(Pick(bs[k].provider, bs[k].version))
  {
    hide Walk, Of, Served, Distinct;
    PlanIsOrdered(g, root, roots);
  }

  /** Why a plan fails: with the code of a need that could not be met, or, when a need was
      met from outside the profile, NOT_FOUND, or with CONFLICT. */
  ghost predicate Reason(g: Graph, code: ErrorCode) {
    code == CONFLICT || exists i, k :: i in g && 0 <= k < |g[i]| && Unmet(g, g[i][k]) == Some(code)
  }

  ghost function Unmet(g: Graph, n: Need): Option<ErrorCode> {
    match n.choice
    case Err(code) => Some(code)
    case Ok(pick) => if pick.provider in g then None else Some(NOT_FOUND)
  }

  lemma {:induction false} VisitFails(g: Graph, root: Text, i: Text, visiting: set<Text>, p: Progress)
    requires i in g && visiting <= g.Keys && Visit(g, root, i, visiting, p).Err?
    ensures Reason(g, Visit(g, root, i, visiting, p).code)
    decreases |g.Keys - visiting|, 0, 0
  {
    hide VisitNeeds, Reason;
    if i in visiting {
      assert Reason(g, CONFLICT) by { ConflictIsReason(g); }
    } else {
      Less1(g.Keys, visiting, i);
      NeedsFail(g, root, i, 0, visiting + {i}, p);
    }
  }

  lemma ConflictIsReason(g: Graph)
    ensures Reason(g, CONFLICT)
  {
  }

  lemma NeedIsReason(g: Graph, i: Text, k: nat, code: ErrorCode)
    requires i in g && k < |g[i]| && Unmet(g, g[i][k]) == Some(code)
    ensures Reason(g, code)
  {
  }

  lemma {:induction false} NeedsFail(g: Graph, root: Text, i: Text, k: nat, visiting: set<Text>, p: Progress)
    requires i in g && visiting <= g.Keys && k <= |g[i]| && VisitNeeds(g, root, i, k, visiting, p).Err?
    ensures Reason(g, VisitNeeds(g, root, i, k, visiting, p).code)
    decreases |g.Keys - visiting|, 1, |g[i]| - k
  {
    hide Visit, Reason;
    if Unmet(g, g[i][k]).Some? {
      NeedIsReason(g, i, k, Unmet(g, g[i][k]).value);
    } else {
      var j := g[i][k].choice.value.provider;
      if Visit(g, root, j, visiting, p).Err? {
        VisitFails(g, root, j, visiting, p);
      } else {
        var below := Visit(g, root, j, visiting, p).value;
        NeedsFail(g, root, i, k + 1, visiting, below.(bindings := below.bindings + [Bind(root, i, g[i][k])]));
      }
    }
  }

  lemma {:induction false} AllFail(g: Graph, root: Text, roots: seq<Text>, p: Progress)
    requires (forall i :: i in roots ==> i in g) && VisitAll(g, root, roots, p).Err?
    ensures Reason(g, VisitAll(g, root, roots, p).code)
  {
    hide Visit, Reason;
    assert roots[0] in roots;
    if Visit(g, root, roots[0], {}, p).Err? {
      VisitFails(g, root, roots[0], {}, p);
    } else {
      AllFail(g, root, roots[1..], Visit(g, root, roots[0], {}, p).value);
    }
  }

  /** A plan that fails does so with the code of some need that is not met; when every
      need is met the only reason left is a cycle, and the code is CONFLICT. */
  lemma PlanFailsFor(g: Graph, root: Text, roots: seq<Text>)
    requires Covers(g, roots) && Walk(g, root, roots).Err?
    ensures
      var code := Walk(g, root, roots).code;
      || (code == CONFLICT && !exists rank :: Ranked(g, rank))
      || exists i, k :: i in g && 0 <= k < |g[i]| && Unmet(g, g[i][k]) == Some(code)
  {
    hide Visit, VisitAll, Ranked;
    AllFail(g, root, roots, START);
    if rank :| Ranked(g, rank) {
      RankedAll(g, root, rank, roots, START);
    }
  }

  // --------------------------------------------------------------------- lock

  const BAR: Unit := 0x7C

  function Key(b: Binding): Text {
    b.scope + [BAR] + (b.consumer + [BAR] + b.capability)
  }

  /** The stable sort of the bindings by key. */
  function InsertBinding(b: Binding, s: seq<Binding>): seq<Binding> {
    if s == [] || !Less(Key(s[0]), Key(b)) then [b] + s else [s[0]] + InsertBinding(b, s[1..])
  }

  function SortBindings(s: seq<Binding>): seq<Binding> {
    if s == [] then [] else InsertBinding(s[0], SortBindings(s[1..]))
  }

  ghost predicate ByKey(s: seq<Binding>) {
    forall i: nat, j: nat :: i < j < |s| ==> !Less(Key(s[j]), Key(s[i]))
  }

  ghost function WithKey(s: seq<Binding>, k: Text): seq<Binding> {
    if s == [] then [] else (if Key(s[0]) == k then [s[0]] else []) + WithKey(s[1..], k)
  }

  lemma ByKeyCons(b: Binding, s: seq<Binding>)
    ensures ByKey([b] + s) <==> ByKey(s) && forall x :: x in s ==> !Less(Key(x), Key(b))
  {
    hide Less, Key;
    var t := [b] + s;
    assert forall i: nat :: i < |s| ==> t[i + 1] == s[i];
    if ByKey(t) {
      forall x | x in s
        ensures !Less(Key(x), Key(b))
      {
        var i: nat :| i < |s| && s[i] == x;
        assert t[0] == b && t[i + 1] == x;
      }
    }
  }

  lemma NotLessTrans(a: Text, b: Text, c: Text)
    requires !Less(b, a) && !Less(c, b)
    ensures !Less(c, a)
  {
    LessTotal(a, b);
    LessTotal(b, c);
    LessTotal(a, c);
    if Less(c, a) && Less(a, b) {
      LessTrans(c, a, b);
    }
  }

  lemma {:induction false} InsertKeeps(b: Binding, s: seq<Binding>, k: Text)
    requires ByKey(s)
    ensures ByKey(InsertBinding(b, s))
    ensures WithKey(InsertBinding(b, s), k) == (if Key(b) == k then [b] else []) + WithKey(s, k)
    ensures forall x :: x in InsertBinding(b, s) <==> x == b || x in s
  {
    hide Less, Key, ByKey;
    if s == [] {
      ByKeyCons(b, s);
      assert ByKey([]) by { assert s == []; }
    } else {
      assert s == [s[0]] + s[1..];
      ByKeyCons(s[0], s[1..]);
      LessTotal(Key(s[0]), Key(b));
      if Less(Key(s[0]), Key(b)) {
        InsertKeeps(b, s[1..], k);
        ByKeyCons(s[0], InsertBinding(b, s[1..]));
      } else {
        forall x | x in s
          ensures !Less(Key(x), Key(b))
        {
          if x in s[1..] { NotLessTrans(Key(b), Key(s[0]), Key(x)); }
        }
        ByKeyCons(b, s);
        assert ([b] + s)[1..] == s;
      }
    }
  }

  lemma {:induction false} SortKeeps(s: seq<Binding>, k: Text)
    ensures ByKey(SortBindings(s)) && WithKey(SortBindings(s), k) == WithKey(s, k)
  {
    hide Key, InsertBinding;
    if s != [] {
      SortKeeps(s[1..], k);
      InsertKeeps(s[0], SortBindings(s[1..]), k);
    }
  }

  lemma {:induction false} WithKeyFinds(s: seq<Binding>, b: Binding)
    requires b in s
    ensures b in WithKey(s, Key(b))
  {
    hide Key;
    if s[0] != b {
      WithKeyFinds(s[1..], b);
    }
  }

  lemma {:induction false} WithKeyOnly(s: seq<Binding>, k: Text)
    ensures forall b :: b in WithKey(s, k) ==> b in s && Key(b) == k
  {
    hide Key;
    if s != [] {
      WithKeyOnly(s[1..], k);
    }
  }

  lemma LeastKey(s: seq<Binding>, t: seq<Binding>)
    requires ByKey(s) && ByKey(t) && s != [] && forall k :: WithKey(s, k) == WithKey(t, k)
    ensures t != [] && !Less(Key(s[0]), Key(t[0]))
  {
    hide Key, Less, WithKey, ByKey;
    WithKeyFinds(s, s[0]);
    WithKeyOnly(t, Key(s[0]));
    assert s[0] in t;
    assert t == [t[0]] + t[1..];
    ByKeyCons(t[0], t[1..]);
    LessTotal(Key(t[0]), Key(t[0]));
  }

  lemma HeadUnderKey(s: seq<Binding>)
    requires s != []
    ensures WithKey(s, Key(s[0])) != [] && WithKey(s, Key(s[0]))[0] == s[0]
  {
    hide Key;
  }

  lemma TailUnderKey(s: seq<Binding>, t: seq<Binding>, k: Text)
    requires s != [] && t != [] && s[0] == t[0] && WithKey(s, k) == WithKey(t, k)
    ensures WithKey(s[1..], k) == WithKey(t[1..], k)
  {
    hide Key;
    var head := if Key(s[0]) == k then [s[0]] else [];
    assert WithKey(s, k)[|head|..] == WithKey(s[1..], k);
    assert WithKey(t, k)[|head|..] == WithKey(t[1..], k);
  }

  /** Sorted sequences that agree key by key are the same. */
  lemma {:induction false} SortedByKeyUnique(s: seq<Binding>, t: seq<Binding>)
    requires ByKey(s) && ByKey(t) && forall k :: WithKey(s, k) == WithKey(t, k)
    ensures s == t
    decreases |s|
  {
    hide Key, Less, ByKey, WithKey;
    if s != [] {
      LeastKey(s, t);
      LeastKey(t, s);
      LessTotal(Key(s[0]), Key(t[0]));
      HeadUnderKey(s);
      HeadUnderKey(t);
      assert WithKey(s, Key(s[0])) == WithKey(t, Key(s[0]));
      assert s == [s[0]] + s[1..] && t == [t[0]] + t[1..];
      ByKeyCons(s[0], s[1..]);
      ByKeyCons(t[0], t[1..]);
      forall k
        ensures WithKey(s[1..], k) == WithKey(t[1..], k)
      {
        TailUnderKey(s, t, k);
      }
      SortedByKeyUnique(s[1..], t[1..]);
    } else if t != [] {
      LeastKey(t, s);
    }
  }

  // ------------------------------------------------------ one consumer, one key

  ghost predicate NoBar(t: Text) {
    BAR !in t
  }

  lemma {:induction false} CutAtBar(a: Text, b: Text, x: Text, y: Text)
    requires NoBar(a) && NoBar(b) && a + [BAR] + x == b + [BAR] + y
    ensures a == b && x == y
  {
    if a == [] || b == [] {
      assert (a + [BAR] + x)[0] == (b + [BAR] + y)[0];
      assert a == [] && b == [];
      assert ([BAR] + x)[1..] == x && ([BAR] + y)[1..] == y;
      assert [] + [BAR] + x == [BAR] + x && [] + [BAR] + y == [BAR] + y;
    } else {
      assert (a + [BAR] + x)[0] == a[0] && (b + [BAR] + y)[0] == b[0];
      assert (a + [BAR] + x)[1..] == a[1..] + [BAR] + x && (b + [BAR] + y)[1..] == b[1..] + [BAR] + y;
      CutAtBar(a[1..], b[1..], x, y);
    }
  }

  /** Every binding is from this scope and names its consumer without a bar. */
  ghost predicate Plain(s: seq<Binding>, root: Text) {
    forall b :: b in s ==> b.scope == root && NoBar(b.scope) && NoBar(b.consumer)
  }

  lemma KeyNamesConsumer(b: Binding, c: Binding)
    requires Key(b) == Key(c) && NoBar(b.scope) && NoBar(c.scope) && NoBar(b.consumer) && NoBar(c.consumer)
    ensures b.consumer == c.consumer
  {
    CutAtBar(b.scope, c.scope, b.consumer + [BAR] + b.capability, c.consumer + [BAR] + c.capability);
    CutAtBar(b.consumer, c.consumer, b.capability, c.capability);
  }

  lemma {:induction false} WithKeyAppend(s: seq<Binding>, t: seq<Binding>, k: Text)
    ensures WithKey(s + t, k) == WithKey(s, k) + WithKey(t, k)
  {
    hide Key;
    if s == [] {
      assert s + t == t;
    } else {
      WithKeyAppend(s[1..], t, k);
      assert (s + t)[1..] == s[1..] + t && (s + t)[0] == s[0];
    }
  }

  /** The bindings under one key are among those of one consumer. */
  lemma {:induction false} KeyWithinConsumer(s: seq<Binding>, k: Text, c: Text)
    requires forall b :: b in s && Key(b) == k ==> b.consumer == c
    ensures WithKey(s, k) == WithKey(Of(s, c), k)
  {
    hide Key;
    if s != [] {
      var n := |s| - 1;
      assert s == s[..n] + [s[n]];
      KeyWithinConsumer(s[..n], k, c);
      WithKeyAppend(s[..n], [s[n]], k);
      WithKeyAppend(Of(s[..n], c), [s[n]], k);
      assert [s[n]][1..] == [];
      assert Of(s[..n], c) + [] == Of(s[..n], c);
    }
  }

  lemma SameUnderKey(s: seq<Binding>, t: seq<Binding>, root: Text, k: Text)
    requires Plain(s, root) && Plain(t, root) && forall c :: Of(s, c) == Of(t, c)
    ensures WithKey(s, k) == WithKey(t, k)
  {
    hide Of, WithKey, Key;
    if b :| b in s + t && Key(b) == k {
      forall x | x in s + t && Key(x) == k
        ensures x.consumer == b.consumer
      {
        KeyNamesConsumer(x, b);
      }
      KeyWithinConsumer(s, k, b.consumer);
      KeyWithinConsumer(t, k, b.consumer);
    } else {
      KeyWithinConsumer(s, k, []);
      KeyWithinConsumer(t, k, []);
    }
  }

  lemma {:induction false} OfCovers(s: seq<Binding>, b: Binding)
    requires b in s
    ensures b in Of(s, b.consumer)
  {
    var n := |s| - 1;
    if s[n] != b {
      OfCovers(s[..n], b);
    }
  }

  lemma BindingsArePlain(g: Graph, root: Text, roots: seq<Text>)
    requires Covers(g, roots) && Walk(g, root, roots).Ok?
    requires NoBar(root) && forall i :: i in g ==> NoBar(i)
    ensures Plain(Walk(g, root, roots).value.bindings, root)
  {
    hide Of, Walk, Served;
    PlanIsOrdered(g, root, roots);
    var p := Walk(g, root, roots).value;
    forall b | b in p.bindings
      ensures b.scope == root && NoBar(b.scope) && NoBar(b.consumer)
    {
      OfCovers(p.bindings, b);
      assert b.consumer in g;
      assert b in Due(g, root, b.consumer, |g[b.consumer]|);
    }
  }

  /** The lock's bindings do not depend on the order of the walk. */
  lemma BindingsIgnoreOrder(g: Graph, root: Text, first: seq<Text>, second: seq<Text>)
    requires Covers(g, first) && Covers(g, second) && Inside(g)
    requires NoBar(root) && forall i :: i in g ==> NoBar(i)
    ensures Walk(g, root, first).Ok? <==> Walk(g, root, second).Ok?
    ensures Walk(g, root, first).Ok? ==>
      SortBindings(Walk(g, root, first).value.bindings) == SortBindings(Walk(g, root, second).value.bindings)
  {
    hide Walk, Served, Of, Due, SortBindings, Key, Ranked;
    PlansExactlyAcyclic(g, root, first);
    PlansExactlyAcyclic(g, root, second);
    if Walk(g, root, first).Ok? {
      var s, t := Walk(g, root, first).value.bindings, Walk(g, root, second).value.bindings;
      PlanIsOrdered(g, root, first);
      PlanIsOrdered(g, root, second);
      BindingsArePlain(g, root, first);
      BindingsArePlain(g, root, second);
      assert forall c :: Of(s, c) == Of(t, c);
      SortKeeps(s, []);
      SortKeeps(t, []);
      forall k
        ensures WithKey(SortBindings(s), k) == WithKey(SortBindings(t), k)
      {
        SortKeeps(s, k);
        SortKeeps(t, k);
        SameUnderKey(s, t, root, k);
      }
      SortedByKeyUnique(SortBindings(s), SortBindings(t));
    }
  }

  // ----------------------------------------------------- the lock's list of plugins

  /** One entry of the profile's `plugins`. */
  datatype Listed = Listed(id: Text, version: Text, digest: Text)

  function Ids(ps: seq<Listed>): seq<Text> {
    seq(|ps|, k requires 0 <= k < |ps| => ps[k].id)
  }

  /** `plan` refuses a profile that lists an id twice. */
  ghost predicate OnePerId(ps: seq<Listed>) {
    forall i, j :: 0 <= i < j < |ps| ==> ps[i].id != ps[j].id
  }

  function InsertListed(p: Listed, s: seq<Listed>): seq<Listed> {
    if s == [] || Less(p.id, s[0].id) then [p] + s else [s[0]] + InsertListed(p, s[1..])
  }

  function SortListed(ps: seq<Listed>): seq<Listed> {
    if ps == [] then [] else InsertListed(ps[0], SortListed(ps[1..]))
  }

  ghost predicate ById(s: seq<Listed>) {
    forall i, j :: 0 <= i < j < |s| ==> Less(s[i].id, s[j].id)
  }

  ghost predicate Ahead(p: Listed, s: seq<Listed>) {
    forall x :: x in s ==> Less(p.id, x.id)
  }

  lemma ByIdCons(p: Listed, s: seq<Listed>)
    ensures ById([p] + s) <==> Ahead(p, s) && ById(s)
  {
    hide Less;
    var t := [p] + s;
    assert forall k :: 0 <= k < |s| ==> t[k + 1] == s[k];
    if ById(t) {
      forall x | x in s
        ensures Less(p.id, x.id)
      {
        var k :| 0 <= k < |s| && s[k] == x;
        assert Less(t[0].id, t[k + 1].id);
      }
      forall i, j | 0 <= i < j < |s|
        ensures Less(s[i].id, s[j].id)
      {
        assert Less(t[i + 1].id, t[j + 1].id);
      }
    }
  }

  lemma {:induction false} InsertListedKeeps(p: Listed, s: seq<Listed>)
    requires ById(s) && forall x :: x in s ==> x.id != p.id
    ensures ById(InsertListed(p, s)) && forall x :: x in InsertListed(p, s) <==> x == p || x in s
  {
    hide Less, ById;
    if s == [] {
      ByIdCons(p, s);
    } else {
      assert s == [s[0]] + s[1..];
      ByIdCons(s[0], s[1..]);
      LessTotal(p.id, s[0].id);
      if Less(p.id, s[0].id) {
        forall x | x in s
          ensures Less(p.id, x.id)
        {
          if x in s[1..] { LessTrans(p.id, s[0].id, x.id); }
        }
        ByIdCons(p, s);
      } else {
        InsertListedKeeps(p, s[1..]);
        ByIdCons(s[0], InsertListed(p, s[1..]));
      }
    }
  }

  lemma {:induction false} SortListedKeeps(ps: seq<Listed>)
    requires OnePerId(ps)
    ensures ById(SortListed(ps)) && forall x :: x in SortListed(ps) <==> x in ps
  {
    hide Less, InsertListed;
    if ps != [] {
      SortListedKeeps(ps[1..]);
      assert ps == [ps[0]] + ps[1..];
      InsertListedKeeps(ps[0], SortListed(ps[1..]));
    }
  }

  lemma LeastId(s: seq<Listed>, t: seq<Listed>)
    requires s != [] && ById(t) && forall x :: x in s ==> x in t
    ensures t != [] && (s[0] == t[0] || Less(t[0].id, s[0].id))
  {
    hide Less, ById;
    assert s[0] in t;
    assert t == [t[0]] + t[1..];
    ByIdCons(t[0], t[1..]);
  }

  lemma {:induction false} ByIdUnique(s: seq<Listed>, t: seq<Listed>)
    requires ById(s) && ById(t) && forall x :: x in s <==> x in t
    ensures s == t
    decreases |s|
  {
    hide Less, ById;
    if s != [] {
      LeastId(s, t);
      LeastId(t, s);
      LessTotal(s[0].id, t[0].id);
      assert s == [s[0]] + s[1..] && t == [t[0]] + t[1..];
      ByIdCons(s[0], s[1..]);
      ByIdCons(t[0], t[1..]);
      LessTotal(s[0].id, s[0].id);
      forall x
        ensures x in s[1..] <==> x in t[1..]
      {
        assert (x in s <==> x == s[0] || x in s[1..]) && (x in t <==> x == t[0] || x in t[1..]);
      }
      ByIdUnique(s[1..], t[1..]);
    } else if t != [] {
      LeastId(t, s);
    }
  }

  /** The lock, its bindings and its list of plugins, does not depend on the order in
      which the profile lists its plugins. */
  lemma LockIgnoresOrder(g: Graph, root: Text, first: seq<Listed>, second: seq<Listed>)
    requires OnePerId(first) && OnePerId(second) && forall p :: p in first <==> p in second
    requires Covers(g, Ids(first)) && Inside(g)
    requires NoBar(root) && forall i :: i in g ==> NoBar(i)
    ensures Covers(g, Ids(second))
    ensures Walk(g, root, Ids(first)).Ok? <==> Walk(g, root, Ids(second)).Ok?
    ensures Walk(g, root, Ids(first)).Ok? ==>
      SortBindings(Walk(g, root, Ids(first)).value.bindings) == SortBindings(Walk(g, root, Ids(second)).value.bindings)
    ensures SortListed(first) == SortListed(second) && forall p :: p in SortListed(first) <==> p in first
  {
    hide Walk, SortBindings, SortListed, ById, Inside;
    SortListedKeeps(first);
    SortListedKeeps(second);
    ByIdUnique(SortListed(first), SortListed(second));
    SameIds(first, second);
    BindingsIgnoreOrder(g, root, Ids(first), Ids(second));
  }

  lemma SameIds(first: seq<Listed>, second: seq<Listed>)
    requires forall p :: p in first <==> p in second
    ensures forall i :: i in Ids(first) <==> i in Ids(second)
  {
    IdsAre(first);
    IdsAre(second);
    hide Ids;
  }

  lemma IdsAre(ps: seq<Listed>)
    ensures forall i :: i in Ids(ps) <==> exists p :: p in ps && p.id == i
  {
    forall i
      ensures i in Ids(ps) <==> exists p :: p in ps && p.id == i
    {
      if i in Ids(ps) {
        var k :| 0 <= k < |ps| && Ids(ps)[k] == i;
        assert ps[k] in ps && ps[k].id == i;
      }
      if p :| p in ps && p.id == i {
        var k :| 0 <= k < |ps| && ps[k] == p;
        assert Ids(ps)[k] == i;
      }
    }
  }

  // ------------------------------------------------------------ the walk itself

  /** The closure `plan` walks with: its sets and lists grow in place. */
  class Planner {
    const graph: Graph
    const root: Text
    var visiting: set<Text>
    var visited: set<Text>
    var order: seq<Text>
    var bindings: seq<Binding>

    ghost function View(): Progress
      reads this
    {
      Progress(visited, order, bindings)
    }

    constructor (g: Graph, scope: Text)
      ensures graph == g && root == scope && visiting == {} && View() == START
    {
      graph, root, visiting, visited, order, bindings := g, scope, {}, {}, [], [];
    }

    method VisitOne(i: Text) returns (failed: Option<ErrorCode>)
      requires i in graph && visiting <= graph.Keys
      modifies this
      ensures
        match Visit(graph, root, i, old(visiting), old(View()))
        case Ok(p) => failed == None && View() == p && visiting == old(visiting)
        case Err(code) => failed == Some(code)
      decreases |graph.Keys - visiting|
    {
      if i in visiting {
        return Some(CONFLICT);
      }
      if i in visited {
        return None;
      }
      Less1(graph.Keys, visiting, i);
      ghost var before, start := visiting, View();
      visiting := visiting + {i};
      var k := 0;
      while k < |graph[i]|
        invariant k <= |graph[i]| && visiting == before + {i}
        invariant VisitNeeds(graph, root, i, 0, visiting, start) == VisitNeeds(graph, root, i, k, visiting, View())
      {
        var need := graph[i][k];
        if need.choice.Err? {
          return Some(need.choice.code);
        }
        if need.choice.value.provider !in graph {
          return Some(NOT_FOUND);
        }
        failed := VisitOne(need.choice.value.provider);
        if failed.Some? {
          return;
        }
        bindings := bindings + [Bind(root, i, need)];
        k := k + 1;
      }
      visiting := visiting - {i};
      visited := visited + {i};
      order := order + [i];
      failed := None;
      assert visiting == before;
    }

    method VisitEach(roots: seq<Text>) returns (r: Result<Progress>)
      requires visiting == {} && View() == START && forall i :: i in roots ==> i in graph
      modifies this
      ensures r == Walk(graph, root, roots)
    {
      hide Visit;
      var n := 0;
      while n < |roots|
        invariant n <= |roots| && visiting == {}
        invariant VisitAll(graph, root, roots, START) == VisitAll(graph, root, roots[n..], View())
      {
        assert roots[n..][0] == roots[n] && roots[n..][1..] == roots[n + 1..];
        var failed := VisitOne(roots[n]);
        if failed.Some? {
          return Err(failed.value);
        }
        n := n + 1;
      }
      r := Ok(Progress(visited, order, bindings));
    }
  }
}
