/** The scopes of a profile: the checks `plan` makes and the loop with which
    `startProfile` creates them. */
module Profiles {
  import opened Core
  import opened Texts

  datatype Declared = Declared(id: Text, parent: Option<Text>)

  /** Declared scopes by id. */
  type Table = map<Text, Option<Text>>

  /** The walk from one scope to the top: nobody twice, and every parent declared. */
  function Climb(t: Table, id: Text, seen: set<Text>): Option<ErrorCode>
    requires id in t
    decreases t.Keys - seen
  {
    if id in seen then Some(CONFLICT)
    else if t[id].None? then None
    else if t[id].value !in t then Some(INVALID_ARGUMENT)
    else Climb(t, t[id].value, seen + {id})
  }

  function TableOf(scopes: seq<Declared>): Table {
    if scopes == [] then map[]
    else
      var n := |scopes| - 1;
      TableOf(scopes[..n])[scopes[n].id := scopes[n].parent]
  }

  ghost predicate UniqueIds(scopes: seq<Declared>) {
    forall i: nat, j: nat :: i < j < |scopes| ==> scopes[i].id != scopes[j].id
  }

  /** What `plan` checks: ids are unique, the configured root is the only scope without
      a parent, and every walk up ends. */
  ghost predicate Accepted(scopes: seq<Declared>, root: Text) {
    && UniqueIds(scopes)
    && (exists s :: s in scopes && s.id == root)
    && (forall s :: s in scopes ==> (s.parent.None? <==> s.id == root))
    && (forall s :: s in scopes ==> s.id in TableOf(scopes) && Climb(TableOf(scopes), s.id, {}).None?)
  }

  lemma {:induction false} TableFinds(scopes: seq<Declared>)
    requires UniqueIds(scopes)
    ensures forall s :: s in scopes ==> s.id in TableOf(scopes) && TableOf(scopes)[s.id] == s.parent
    ensures forall id :: id in TableOf(scopes) ==> exists s :: s in scopes && s.id == id
  {
    if scopes != [] {
      var n := |scopes| - 1;
      TableFinds(scopes[..n]);
      assert scopes == scopes[..n] + [scopes[n]];
      forall s | s in scopes[..n]
        ensures s.id != scopes[n].id
      {
        var i: nat :| i < n && scopes[..n][i] == s;
      }
    }
  }

  /** How many steps up it is. */
  ghost function Height(t: Table, id: Text, seen: set<Text>): nat
    requires id in t && Climb(t, id, seen).None?
    decreases t.Keys - seen
  {
    if t[id].None? then 0 else 1 + Height(t, t[id].value, seen + {id})
  }

  /** A scope that was not met on the way makes no difference to the rest of the way. */
  lemma {:induction false} ClimbWithout(t: Table, id: Text, seen: set<Text>, less: set<Text>)
    requires id in t && less <= seen && Climb(t, id, seen).None?
    ensures Climb(t, id, less).None? && Height(t, id, less) == Height(t, id, seen)
    decreases t.Keys - seen
  {
    if t[id].Some? {
      ClimbWithout(t, t[id].value, seen + {id}, less + {id});
    }
  }

  /** The scope n steps up, where the way ends: at one without a parent or with one that
      is not declared. */
  ghost predicate EndsIn(t: Table, id: Text, n: nat)
    decreases n
  {
    && id in t
    && if t[id].None? || t[id].value !in t then n == 0 else n > 0 && EndsIn(t, t[id].value, n - 1)
  }

  /** The way ends, and in more than n steps. */
  ghost predicate EndsAfter(t: Table, id: Text, n: int) {
    exists m: nat :: m > n && EndsIn(t, id, m)
  }

  ghost function Top(t: Table, id: Text, n: nat): Text
    decreases n
  {
    if n == 0 || id !in t || t[id].None? then id else Top(t, t[id].value, n - 1)
  }

  lemma {:induction false} EndsOnce(t: Table, id: Text, n: nat, m: nat)
    requires EndsIn(t, id, n) && EndsIn(t, id, m)
    ensures n == m
    decreases n
  {
    if n > 0 {
      EndsOnce(t, t[id].value, n - 1, m - 1);
    }
  }

  lemma {:induction false} ClimbToTheEnd(t: Table, id: Text, seen: set<Text>, n: nat)
    requires EndsIn(t, id, n) && forall x :: x in seen ==> EndsAfter(t, x, n)
    ensures Top(t, id, n) in t
    ensures Climb(t, id, seen) == if t[Top(t, id, n)].None? then None else Some(INVALID_ARGUMENT)
    decreases n
  {
    if id in seen {
      var m: nat :| m > n && EndsIn(t, id, m);
      EndsOnce(t, id, n, m);
    }
    if n > 0 {
      forall x | x in seen + {id}
        ensures EndsAfter(t, x, n - 1)
      {
        if x == id {
          assert EndsIn(t, id, n);
        } else {
          var m: nat :| m > n && EndsIn(t, x, m);
          assert EndsIn(t, x, m);
        }
      }
      ClimbToTheEnd(t, t[id].value, seen + {id}, n - 1);
    }
  }

  lemma {:induction false} ClimbEnds(t: Table, id: Text, seen: set<Text>) returns (n: nat)
    requires id in t && Climb(t, id, seen) != Some(CONFLICT)
    ensures EndsIn(t, id, n)
    decreases t.Keys - seen
  {
    if t[id].None? || t[id].value !in t {
      n := 0;
    } else {
      n := ClimbEnds(t, t[id].value, seen + {id});
      n := n + 1;
    }
  }

  /** The walk finds nothing wrong exactly when it ends at a scope without a parent; a
      parent that is not declared is INVALID_ARGUMENT, and a way without an end CONFLICT. */
  lemma ClimbsExactly(t: Table, id: Text)
    requires id in t
    ensures Climb(t, id, {}) != Some(CONFLICT) <==> EndsAfter(t, id, -1)
    ensures forall n: nat :: EndsIn(t, id, n) ==>
      Top(t, id, n) in t && Climb(t, id, {}) == if t[Top(t, id, n)].None? then None else Some(INVALID_ARGUMENT)
  {
    hide Climb;
    forall n: nat | EndsIn(t, id, n)
      ensures Top(t, id, n) in t && Climb(t, id, {}) == if t[Top(t, id, n)].None? then None else Some(INVALID_ARGUMENT)
    {
      ClimbToTheEnd(t, id, {}, n);
    }
    if Climb(t, id, {}) != Some(CONFLICT) {
      var n := ClimbEnds(t, id, {});
      assert EndsIn(t, id, n);
    }
    if EndsAfter(t, id, -1) {
      var n: nat :| EndsIn(t, id, n);
      assert Climb(t, id, {}) == if t[Top(t, id, n)].None? then None else Some(INVALID_ARGUMENT);
    }
  }

  /** In an accepted profile a parent is one step nearer to the root. */
  lemma ParentIsNearer(scopes: seq<Declared>, root: Text, s: Declared)
    requires Accepted(scopes, root) && s in scopes && s.parent.Some?
    ensures exists p :: p in scopes && p.id == s.parent.value
    ensures s.parent.value in TableOf(scopes) && Climb(TableOf(scopes), s.parent.value, {}).None?
    ensures Height(TableOf(scopes), s.id, {}) == 1 + Height(TableOf(scopes), s.parent.value, {})
  {
    TableFinds(scopes);
    ClimbWithout(TableOf(scopes), s.parent.value, {} + {s.id}, {});
  }

  // ---------------------------------------------------------------- creation

  predicate Made(root: Text, created: seq<Text>, id: Text) {
    id == root || id in created
  }

  predicate IsReady(root: Text, created: seq<Text>, s: Declared) {
    s.parent.Some? && Made(root, created, s.parent.value)
  }

  /** `todo.filter`, those that are ready or those that are not. */
  function Filter(todo: seq<Declared>, root: Text, created: seq<Text>, ready: bool): (r: seq<Declared>)
    ensures forall s :: s in r <==> s in todo && IsReady(root, created, s) == ready
    ensures |r| <= |todo|
  {
    if todo == [] then []
    else (if IsReady(root, created, todo[0]) == ready then [todo[0]] else []) + Filter(todo[1..], root, created, ready)
  }

  lemma {:induction false} FilterKeepsIds(todo: seq<Declared>, root: Text, created: seq<Text>, ready: bool)
    requires UniqueIds(todo)
    ensures UniqueIds(Filter(todo, root, created, ready))
  {
    hide IsReady;
    if todo != [] {
      assert forall i: nat :: i < |todo| - 1 ==> todo[1..][i] == todo[i + 1];
      FilterKeepsIds(todo[1..], root, created, ready);
      var rest := Filter(todo[1..], root, created, ready);
      forall i: nat | i < |rest|
        ensures rest[i].id != todo[0].id
      {
        assert rest[i] in todo[1..];
      }
    }
  }

  lemma {:induction false} FilterShrinks(todo: seq<Declared>, root: Text, created: seq<Text>, ready: bool)
    requires exists s :: s in todo && IsReady(root, created, s) != ready
    ensures |Filter(todo, root, created, ready)| < |todo|
  {
    hide IsReady;
    if IsReady(root, created, todo[0]) == ready {
      var s :| s in todo && IsReady(root, created, s) != ready;
      assert s in todo[1..];
      FilterShrinks(todo[1..], root, created, ready);
    }
  }

  /** What has been created so far: each declared scope at most once and after its
      parent. */
  ghost predicate ParentsFirst(scopes: seq<Declared>, root: Text, created: seq<Text>) {
    && root !in created
    && (forall i: nat, j: nat :: i < j < |created| ==> created[i] != created[j])
    && (forall i: nat :: i < |created| ==> InPlace(scopes, root, created, i))
  }

  /** It is declared, and comes after its parent. */
  ghost predicate InPlace(scopes: seq<Declared>, root: Text, created: seq<Text>, i: nat)
    requires i < |created|
  {
    exists s :: s in scopes && s.id == created[i] && Follows(s, root, created, i)
  }

  /** Its parent is the root or among the first i. */
  predicate Follows(s: Declared, root: Text, created: seq<Text>, i: nat)
    requires i <= |created|
  {
    s.parent.Some? && (s.parent.value == root || s.parent.value in created[..i])
  }

  lemma OneMore(scopes: seq<Declared>, root: Text, created: seq<Text>, s: Declared)
    requires ParentsFirst(scopes, root, created) && s in scopes && IsReady(root, created, s) && !Made(root, created, s.id)
    ensures ParentsFirst(scopes, root, created + [s.id])
  {
    hide InPlace;
    var more := created + [s.id];
    forall i: nat | i < |more|
      ensures InPlace(scopes, root, more, i)
    {
      if i < |created| {
        StaysInPlace(scopes, root, created, s.id, i);
      } else {
        LastInPlace(scopes, root, created, s);
      }
    }
  }

  lemma StaysInPlace(scopes: seq<Declared>, root: Text, created: seq<Text>, id: Text, i: nat)
    requires i < |created| && InPlace(scopes, root, created, i)
    ensures InPlace(scopes, root, created + [id], i)
  {
    assert (created + [id])[..i] == created[..i];
    var d :| d in scopes && d.id == created[i] && Follows(d, root, created, i);
    assert Follows(d, root, created + [id], i);
  }

  lemma LastInPlace(scopes: seq<Declared>, root: Text, created: seq<Text>, s: Declared)
    requires s in scopes && IsReady(root, created, s)
    ensures InPlace(scopes, root, created + [s.id], |created|)
  {
    assert (created + [s.id])[..|created|] == created;
    assert Follows(s, root, created + [s.id], |created|);
  }

  /** What is left to do is what is declared and not made. */
  ghost predicate LeftOver(scopes: seq<Declared>, root: Text, created: seq<Text>, todo: seq<Declared>) {
    && UniqueIds(todo)
    && (forall s :: s in todo ==> s in scopes && !Made(root, created, s.id))
    && (forall s :: s in scopes ==> s in todo || Made(root, created, s.id))
  }

  /** Among scopes still to be created one has its parent already. */
  lemma {:induction false} SomeoneIsReady(scopes: seq<Declared>, root: Text, created: seq<Text>, s: Declared) returns (ready: Declared)
    requires Accepted(scopes, root) && s in scopes && !Made(root, created, s.id)
    ensures ready in scopes && !Made(root, created, ready.id) && IsReady(root, created, ready)
    decreases if s.id in TableOf(scopes) && Climb(TableOf(scopes), s.id, {}).None? then Height(TableOf(scopes), s.id, {}) else 0
  {
    if IsReady(root, created, s) {
      ready := s;
    } else {
      ParentIsNearer(scopes, root, s);
      var p :| p in scopes && p.id == s.parent.value;
      ready := SomeoneIsReady(scopes, root, created, p);
    }
  }

  /** One round of the loop: every scope that is ready, in the order declared. */
  method CreateRound(scopes: seq<Declared>, root: Text, created: seq<Text>, ready: seq<Declared>) returns (more: seq<Text>)
    requires ParentsFirst(scopes, root, created) && UniqueIds(ready)
    requires forall s :: s in ready ==> s in scopes && IsReady(root, created, s) && !Made(root, created, s.id)
    ensures ParentsFirst(scopes, root, more)
    ensures |more| == |created| + |ready| && created <= more && forall i :: 0 <= i < |ready| ==> more[|created| + i] == ready[i].id
    ensures forall id :: id in more <==> id in created || exists s :: s in ready && s.id == id
  {
    hide ParentsFirst;
    more := created;
    var n := 0;
    while n < |ready|
      invariant n <= |ready| && ParentsFirst(scopes, root, more)
      invariant |more| == |created| + n && created <= more && forall i :: 0 <= i < n ==> more[|created| + i] == ready[i].id
      invariant forall id :: id in more <==> id in created || exists i: nat :: i < n && ready[i].id == id
    {
      assert ready[n] in ready;
      OneMore(scopes, root, more, ready[n]);
      more := more + [ready[n].id];
      n := n + 1;
    }
  }

  /** The loop of `startProfile`, when nothing else stands in the way of creating a
      scope: some scope is ready in every round, so it ends; every declared scope is
      created, once, and after its parent. */
  method CreateAll(scopes: seq<Declared>, root: Text) returns (created: seq<Text>)
    requires Accepted(scopes, root)
    ensures ParentsFirst(scopes, root, created)
    ensures forall s :: s in scopes ==> Made(root, created, s.id)
  {
    hide Climb, TableOf, ParentsFirst, Filter, IsReady;
    created := [];
    assert ParentsFirst(scopes, root, []) by { NothingMade(scopes, root); }
    var todo := WithParent(scopes);
    Beginning(scopes, root);
    while todo != []
      invariant ParentsFirst(scopes, root, created) && LeftOver(scopes, root, created, todo)
      decreases |todo|
    {
      assert todo[0] in todo;
      ghost var one := SomeoneIsReady(scopes, root, created, todo[0]);
      var ready := Filter(todo, root, created, true);
      assert one in ready;
      FilterKeepsIds(todo, root, created, true);
      FilterShrinks(todo, root, created, false);
      ghost var before := created;
      var rest := Filter(todo, root, created, false);
      created := CreateRound(scopes, root, created, ready);
      RoundLeaves(scopes, root, before, created, todo);
      todo := rest;
    }
  }

  lemma NothingMade(scopes: seq<Declared>, root: Text)
    ensures ParentsFirst(scopes, root, [])
  {
  }

  function WithParent(scopes: seq<Declared>): (r: seq<Declared>)
    ensures forall s :: s in r <==> s in scopes && s.parent.Some?
  {
    if scopes == [] then [] else (if scopes[0].parent.Some? then [scopes[0]] else []) + WithParent(scopes[1..])
  }

  lemma {:induction false} WithParentIds(scopes: seq<Declared>)
    requires UniqueIds(scopes)
    ensures UniqueIds(WithParent(scopes))
  {
    if scopes != [] {
      assert forall i: nat :: i < |scopes| - 1 ==> scopes[1..][i] == scopes[i + 1];
      WithParentIds(scopes[1..]);
      var rest := WithParent(scopes[1..]);
      forall i: nat | i < |rest|
        ensures rest[i].id != scopes[0].id
      {
        assert rest[i] in scopes[1..];
      }
    }
  }

  lemma Beginning(scopes: seq<Declared>, root: Text)
    requires Accepted(scopes, root)
    ensures LeftOver(scopes, root, [], WithParent(scopes))
  {
    WithParentIds(scopes);
  }

  /** Two declared scopes with one id are one. */
  lemma OneDeclaration(scopes: seq<Declared>, a: Declared, b: Declared)
    requires UniqueIds(scopes) && a in scopes && b in scopes && a.id == b.id
    ensures a == b
  {
    var i: nat :| i < |scopes| && scopes[i] == a;
    var j: nat :| j < |scopes| && scopes[j] == b;
  }

  lemma RoundLeaves(scopes: seq<Declared>, root: Text, created: seq<Text>, more: seq<Text>, todo: seq<Declared>)
    requires UniqueIds(scopes) && LeftOver(scopes, root, created, todo)
    requires forall id :: id in more <==> id in created || exists s :: s in Filter(todo, root, created, true) && s.id == id
    ensures LeftOver(scopes, root, more, Filter(todo, root, created, false))
  {
    hide IsReady;
    FilterKeepsIds(todo, root, created, false);
    forall s | s in Filter(todo, root, created, false)
      ensures s in scopes && !Made(root, more, s.id)
    {
      if r :| r in Filter(todo, root, created, true) && r.id == s.id {
        OneDeclaration(scopes, r, s);
      }
    }
  }
}
