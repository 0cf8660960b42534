/** Scopes with generations and chains of grants: who may do what, where and until when. */
module Authority {
  import opened Core
  import opened Texts

  datatype Phase = Open | Closing | Closed

  /** A scope object; it keeps its identity after the map has forgotten its name. */
  datatype Scope = Scope(id: Text, parent: Option<Text>, generation: nat, owner: Option<Text>, phase: Phase)

  datatype Kind = Capability | Secret | Event

  datatype Grant = Grant(
    id: Text,
    kind: Kind,
    principal: Text,
    holder: Text,
    scope: Text,
    generation: int,
    resource: Text,
    operations: set<Text>,
    issuedAt: real,
    expiresAt: real,
    revision: int)

  /** `index` is the place in the map's insertion order. */
  datatype Stored = Stored(record: Grant, revoked: bool, parent: Option<Text>, index: nat)

  datatype Host = Host(
    objects: seq<Scope>,
    scopes: map<Text, nat>,
    generations: map<Text, nat>,
    grants: map<Text, Stored>,
    maxScopes: nat,
    maxGrants: nat)

  /** What the authority logic needs to know of a plugin instance. */
  datatype Holder = Holder(id: Text, principal: Text, home: nat, ended: bool)

  // ------------------------------------------------------------------ scopes

  predicate Mapped(h: Host, s: nat) {
    s < |h.objects| && h.objects[s].id in h.scopes && h.scopes[h.objects[s].id] == s
  }

  /** `open`. */
  predicate IsOpen(h: Host, s: nat) {
    Mapped(h, s) && h.objects[s].phase == Open
  }

  /** The scope object n steps up from s. */
  function Up(h: Host, s: nat, n: nat): Option<nat>
    decreases n
  {
    if s >= |h.objects| then None
    else if n == 0 then Some(s)
    else if h.objects[s].parent.None? || h.objects[s].parent.value !in h.scopes then None
    else Up(h, h.scopes[h.objects[s].parent.value], n - 1)
  }

  /** `visible`: the provider's scope is the consumer's or above it. */
  ghost predicate Visible(h: Host, provider: nat, consumer: nat) {
    exists n: nat :: Up(h, consumer, n) == Some(provider)
  }

  function NewScope(h: Host, id: Text, parent: Option<nat>, owner: Option<Text>): Result<Host> {
    if !(|h.scopes| < h.maxScopes && (id in h.generations || |h.generations| < h.maxScopes)) then Err(RESOURCE_EXHAUSTED)
    else if id in h.scopes then Err(CONFLICT)
    else if parent.Some? && !IsOpen(h, parent.value) then Err(FAILED_PRECONDITION)
    else
      var generation := (if id in h.generations then h.generations[id] else 0) + 1;
      var above := if parent.Some? then Some(h.objects[parent.value].id) else None;
      Ok(h.(objects := h.objects + [Scope(id, above, generation, owner, Open)],
            scopes := h.scopes[id := |h.objects|],
            generations := h.generations[id := generation]))
  }

  /** The synchronous part of `destroyScope`: the scope and everything below it close,
      and every grant bound to one of those names is revoked. */
  ghost function CloseTree(h: Host, root: Text): Host {
    if root !in h.scopes then h
    else
      var closing := set id | id in h.scopes && Visible(h, h.scopes[root], h.scopes[id]);
      h.(objects := seq(|h.objects|, s requires 0 <= s < |h.objects| =>
                          if Mapped(h, s) && h.objects[s].id in closing then h.objects[s].(phase := Closing) else h.objects[s]),
         grants := map g | g in h.grants ::
                     if h.grants[g].record.scope in closing then h.grants[g].(revoked := true) else h.grants[g])
  }

  /** The end of `destroyScope` for one closing scope, still under its own name. */
  function DropScope(h: Host, s: nat): Host {
    if Mapped(h, s) && h.objects[s].phase == Closing then
      h.(objects := h.objects[s := h.objects[s].(phase := Closed)], scopes := h.scopes - {h.objects[s].id})
    else h
  }

  // ------------------------------------------------------------------ grants

  predicate Matches(g: Grant, i: Holder, scope: Text, generation: int, kind: Kind, resource: Text) {
    g.kind == kind && g.holder == i.id && g.principal == i.principal && g.scope == scope && g.generation == generation
    && g.resource == resource
  }

  /** The part of `valid` that looks at the grant itself. */
  predicate StandsAlone(h: Host, g: Stored, now: real) {
    && !g.revoked
    && g.record.scope in h.scopes
    && h.scopes[g.record.scope] < |h.objects|
    && h.objects[h.scopes[g.record.scope]].phase == Open
    && h.objects[h.scopes[g.record.scope]].generation == g.record.generation
    && g.record.issuedAt <= now < g.record.expiresAt
  }

  /** `valid`, with its guard against going round in circles. */
  function Valid(h: Host, id: Text, now: real, seen: set<Text>): bool
    requires id in h.grants
    decreases h.grants.Keys - seen
  {
    if id in seen then false
    else
      && StandsAlone(h, h.grants[id], now)
      && (h.grants[id].parent.None?
          || (h.grants[id].parent.value in h.grants && Valid(h, h.grants[id].parent.value, now, seen + {id})))
  }

  predicate CanCarry(h: Host, p: Text, g: Grant, i: Holder, above: Scope, now: real) {
    && p in h.grants
    && Matches(h.grants[p].record, i, above.id, above.generation, g.kind, g.resource)
    && g.operations <= h.grants[p].record.operations
    && h.grants[p].record.expiresAt >= g.expiresAt
    && Valid(h, p, now, {})
  }

  /** The first grant in insertion order that can carry g. */
  ghost predicate FirstCarrier(h: Host, p: Text, g: Grant, i: Holder, above: Scope, now: real) {
    && CanCarry(h, p, g, i, above, now)
    && forall q :: CanCarry(h, q, g, i, above, now) ==> h.grants[p].index <= h.grants[q].index
  }

  /** `issueGrant`: what it checks, in order, and what it stores. */
  ghost predicate Issues(h: Host, g: Grant, i: Option<Holder>, now: real, r: Result<Host>) {
    if |h.grants| >= h.maxGrants then r == Err(RESOURCE_EXHAUSTED)
    else if g.id in h.grants then r == Err(CONFLICT)
    else if i.None? || g.holder != i.value.id then r == Err(NOT_FOUND)
    else if g.principal != i.value.principal || i.value.ended then r == Err(PERMISSION_DENIED)
    else if g.scope !in h.scopes || h.scopes[g.scope] >= |h.objects| || h.objects[h.scopes[g.scope]].generation != g.generation then
      r == Err(PERMISSION_DENIED)
    else if !IsOpen(h, h.scopes[g.scope]) then r == Err(FAILED_PRECONDITION)
    else
      var s := h.objects[h.scopes[g.scope]];
      if !(Visible(h, h.scopes[g.scope], i.value.home) || s.owner == Some(i.value.id)) then r == Err(PERMISSION_DENIED)
      else if !(g.issuedAt <= now < g.expiresAt) then r == Err(PERMISSION_DENIED)
      else if s.parent.None? then r == Ok(Store(h, g, None))
      else if s.parent.value !in h.scopes || h.scopes[s.parent.value] >= |h.objects| then r == Err(INTERNAL)
      else
        var above := h.objects[h.scopes[s.parent.value]];
        if exists p :: CanCarry(h, p, g, i.value, above, now) then
          exists p :: FirstCarrier(h, p, g, i.value, above, now) && r == Ok(Store(h, g, Some(p)))
        else r == Err(PERMISSION_DENIED)
  }

  function Store(h: Host, g: Grant, parent: Option<Text>): Host {
    h.(grants := h.grants[g.id := Stored(g, false, parent, |h.grants|)])
  }

  function Revoke(h: Host, id: Text): Host {
    if id in h.grants then h.(grants := h.grants[id := h.grants[id].(revoked := true)]) else h
  }

  /** What `dispose` does to the grants of an instance. */
  function RevokeHolder(h: Host, holder: Text): Host {
    h.(grants := map g | g in h.grants ::
                   if h.grants[g].record.holder == holder then h.grants[g].(revoked := true) else h.grants[g])
  }

  // ------------------------------------------------------------- what is kept

  ghost predicate NamesOk(h: Host) {
    forall id :: id in h.scopes ==> h.scopes[id] < |h.objects| && h.objects[h.scopes[id]].id == id
  }

  /** A generation is never reused. */
  ghost predicate GenerationsOk(h: Host) {
    && (forall s: nat :: s < |h.objects| ==>
          h.objects[s].id in h.generations && 1 <= h.objects[s].generation <= h.generations[h.objects[s].id])
    && (forall s: nat, t: nat :: (
          && s < |h.objects| && t < |h.objects|
          && h.objects[s].id == h.objects[t].id && h.objects[s].generation == h.objects[t].generation) ==> s == t)
  }

  /** An open scope hangs off an older open scope, all the way up. */
  ghost predicate OpenOk(h: Host)
    requires NamesOk(h)
  {
    forall s: nat :: s < |h.objects| && h.objects[s].phase == Open ==>
      && Mapped(h, s)
      && (h.objects[s].parent.Some? ==>
            && h.objects[s].parent.value in h.scopes
            && h.scopes[h.objects[s].parent.value] < s
            && h.objects[h.scopes[h.objects[s].parent.value]].phase == Open)
  }

  ghost predicate ScopesOk(h: Host) {
    NamesOk(h) && GenerationsOk(h) && OpenOk(h)
  }

  /** The scope object a grant was bound to. */
  ghost predicate Bound(h: Host, g: Grant, s: nat) {
    s < |h.objects| && h.objects[s].id == g.scope && h.objects[s].generation == g.generation
  }

  /** A grant never gives more than the one it hangs from, for the same holder and
      resource, one scope further up; only grants at a root hang from nothing. */
  ghost predicate Attenuates(h: Host, g: Stored, p: Stored) {
    && g.record.kind == p.record.kind && g.record.holder == p.record.holder
    && g.record.principal == p.record.principal && g.record.resource == p.record.resource
    && g.record.operations <= p.record.operations
    && g.record.expiresAt <= p.record.expiresAt
    && p.index < g.index
    && (forall s: nat :: Bound(h, g.record, s) ==> h.objects[s].parent == Some(p.record.scope))
  }

  ghost predicate GrantOk(h: Host, g: Stored) {
    && g.index < |h.grants|
    && (exists s: nat :: Bound(h, g.record, s))
    && (g.parent.Some? ==> g.parent.value in h.grants && Attenuates(h, g, h.grants[g.parent.value]))
    && (g.parent.None? ==> forall s: nat :: Bound(h, g.record, s) ==> h.objects[s].parent.None?)
  }

  ghost predicate GrantsOk(h: Host) {
    forall id :: id in h.grants ==> h.grants[id].record.id == id && GrantOk(h, h.grants[id])
  }

  ghost predicate HostOk(h: Host) {
    ScopesOk(h) && GrantsOk(h)
  }

  // ------------------------------------------------------------------ chains

  /** The conjunction over the chain, with no guard. */
  ghost predicate Stands(h: Host, id: Text, now: real)
    requires GrantsOk(h) && id in h.grants
    decreases h.grants[id].index
  {
    && StandsAlone(h, h.grants[id], now)
    && (h.grants[id].parent.None? || Stands(h, h.grants[id].parent.value, now))
  }

  /** `valid` is the conjunction over the chain: its guard never fires. */
  lemma {:induction false} ValidIsConjunction(h: Host, id: Text, now: real, seen: set<Text>)
    requires GrantsOk(h) && id in h.grants
    requires forall x :: x in seen ==> x in h.grants && h.grants[x].index > h.grants[id].index
    ensures Valid(h, id, now, seen) == Stands(h, id, now)
    decreases h.grants[id].index
  {
    hide StandsAlone;
    if h.grants[id].parent.Some? {
      ValidIsConjunction(h, h.grants[id].parent.value, now, seen + {id});
    }
  }

  ghost predicate HangsFrom(h: Host, id: Text, top: Text)
    requires GrantsOk(h) && id in h.grants
    decreases h.grants[id].index
  {
    id == top || (h.grants[id].parent.Some? && HangsFrom(h, h.grants[id].parent.value, top))
  }

  /** Whatever a grant hangs from, however far up, is at least as wide, lasts at least
      as long, and was given to the same holder for the same resource; and the grant is
      worth nothing once any of them is not. */
  lemma {:induction false} ChainAttenuates(h: Host, id: Text, top: Text, now: real)
    requires GrantsOk(h) && id in h.grants && HangsFrom(h, id, top)
    ensures top in h.grants
    ensures
      var g, t := h.grants[id].record, h.grants[top].record;
      && g.operations <= t.operations && g.expiresAt <= t.expiresAt
      && g.holder == t.holder && g.principal == t.principal && g.resource == t.resource && g.kind == t.kind
    ensures !StandsAlone(h, h.grants[top], now) ==> !Valid(h, id, now, {})
    decreases h.grants[id].index
  {
    hide StandsAlone;
    ValidIsConjunction(h, id, now, {});
    if id != top {
      ChainAttenuates(h, h.grants[id].parent.value, top, now);
      ValidIsConjunction(h, h.grants[id].parent.value, now, {});
    }
  }

  /** Every chain ends at a grant given at a root scope. */
  lemma {:induction false} ChainReachesRoot(h: Host, id: Text) returns (top: Text)
    requires GrantsOk(h) && id in h.grants
    ensures top in h.grants && HangsFrom(h, id, top) && h.grants[top].parent.None?
    ensures forall s: nat :: Bound(h, h.grants[top].record, s) ==> h.objects[s].parent.None?
    decreases h.grants[id].index
  {
    hide Bound;
    if h.grants[id].parent.None? {
      top := id;
    } else {
      top := ChainReachesRoot(h, h.grants[id].parent.value);
    }
  }

  /** Everything above an open scope is open. */
  lemma {:induction false} OpenAllTheWayUp(h: Host, s: nat, n: nat)
    requires ScopesOk(h) && IsOpen(h, s) && Up(h, s, n).Some?
    ensures IsOpen(h, Up(h, s, n).value)
    decreases n
  {
    if n > 0 {
      OpenAllTheWayUp(h, h.scopes[h.objects[s].parent.value], n - 1);
    }
  }

  // ------------------------------------------------------------------- steps

  lemma NewScopeKeeps(h: Host, id: Text, parent: Option<nat>, owner: Option<Text>)
    requires HostOk(h) && NewScope(h, id, parent, owner).Ok?
    ensures HostOk(NewScope(h, id, parent, owner).value)
  {
    hide GrantsOk, GenerationsOk, NamesOk, OpenOk;
    var k := NewScope(h, id, parent, owner).value;
    NewScopeGenerations(h, id, parent, owner);
    NewScopeNames(h, id, parent, owner);
    SameGrants(h, k);
  }

  lemma NewScopeNames(h: Host, id: Text, parent: Option<nat>, owner: Option<Text>)
    requires NamesOk(h) && OpenOk(h) && NewScope(h, id, parent, owner).Ok?
    ensures
      var k := NewScope(h, id, parent, owner).value;
      NamesOk(k) && OpenOk(k)
  {
    var k := NewScope(h, id, parent, owner).value;
    assert forall s: nat :: s < |h.objects| ==> k.objects[s] == h.objects[s];
  }

  lemma NewScopeGenerations(h: Host, id: Text, parent: Option<nat>, owner: Option<Text>)
    requires GenerationsOk(h) && NewScope(h, id, parent, owner).Ok?
    ensures GenerationsOk(NewScope(h, id, parent, owner).value)
  {
    var k := NewScope(h, id, parent, owner).value;
    assert forall s: nat :: s < |h.objects| ==> k.objects[s] == h.objects[s];
  }

  /** Scope objects keep their name, generation and parent for ever. */
  ghost predicate SameObjects(h: Host, k: Host) {
    && |h.objects| <= |k.objects|
    && forall s: nat :: s < |h.objects| ==>
         && k.objects[s].id == h.objects[s].id && k.objects[s].generation == h.objects[s].generation
         && k.objects[s].parent == h.objects[s].parent
  }

  /** Scopes may come, and change phase; grants stay bound to what they were bound to. */
  lemma BoundStays(h: Host, k: Host, g: Grant)
    requires GenerationsOk(k) && SameObjects(h, k) && exists s: nat :: Bound(h, g, s)
    ensures forall s: nat :: Bound(k, g, s) <==> Bound(h, g, s)
  {
    var t: nat :| Bound(h, g, t);
    assert Bound(k, g, t);
  }

  ghost predicate SameRecords(h: Host, k: Host) {
    && k.grants.Keys == h.grants.Keys
    && forall g :: g in h.grants ==> k.grants[g] == h.grants[g].(revoked := k.grants[g].revoked)
  }

  lemma SameGrants(h: Host, k: Host)
    requires GrantsOk(h) && GenerationsOk(k) && SameObjects(h, k) && SameRecords(h, k)
    ensures GrantsOk(k)
  {
    hide GrantOk, GenerationsOk, SameObjects;
    forall id | id in k.grants
      ensures k.grants[id].record.id == id && GrantOk(k, k.grants[id])
    {
      SameGrant(h, k, id);
    }
  }

  lemma SameGrant(h: Host, k: Host, id: Text)
    requires id in h.grants && GrantOk(h, h.grants[id])
    requires GenerationsOk(k) && SameObjects(h, k) && SameRecords(h, k)
    ensures GrantOk(k, k.grants[id])
  {
    hide Bound, GenerationsOk;
    assert |k.grants.Keys| == |k.grants| && |h.grants.Keys| == |h.grants|;
    BoundStays(h, k, h.grants[id].record);
    BoundInside(h, h.grants[id].record);
  }

  lemma BoundInside(h: Host, g: Grant)
    ensures forall s: nat :: Bound(h, g, s) ==> s < |h.objects|
  {
  }

  lemma RevokeKeeps(h: Host, id: Text)
    requires HostOk(h)
    ensures HostOk(Revoke(h, id))
  {
    hide GrantsOk;
    SameGrants(h, Revoke(h, id));
  }

  lemma RevokeHolderKeeps(h: Host, holder: Text)
    requires HostOk(h)
    ensures HostOk(RevokeHolder(h, holder))
  {
    hide GrantsOk;
    SameGrants(h, RevokeHolder(h, holder));
  }

  lemma DropScopeKeeps(h: Host, s: nat)
    requires HostOk(h)
    ensures HostOk(DropScope(h, s))
  {
    hide GrantsOk;
    DropScopeScopes(h, s);
    SameGrants(h, DropScope(h, s));
  }

  lemma DropScopeScopes(h: Host, s: nat)
    requires ScopesOk(h)
    ensures ScopesOk(DropScope(h, s))
  {
    hide OpenOk;
    assert GenerationsOk(DropScope(h, s));
    hide GenerationsOk;
    DropScopeOpen(h, s);
  }

  lemma DropScopeOpen(h: Host, s: nat)
    requires NamesOk(h) && OpenOk(h)
    ensures NamesOk(DropScope(h, s)) && OpenOk(DropScope(h, s))
  {
  }

  /** A scope left open by a closing tree has its parent left open too. */
  lemma ParentStaysOpen(h: Host, root: nat, s: nat)
    requires ScopesOk(h) && IsOpen(h, s) && h.objects[s].parent.Some?
    requires Visible(h, root, h.scopes[h.objects[s].parent.value])
    ensures Visible(h, root, s)
  {
    var p := h.scopes[h.objects[s].parent.value];
    var n: nat :| Up(h, p, n) == Some(root);
    assert Up(h, s, n + 1) == Some(root);
  }

  lemma CloseTreeKeeps(h: Host, root: Text)
    requires HostOk(h)
    ensures HostOk(CloseTree(h, root))
  {
    hide GrantsOk, Visible;
    var k := CloseTree(h, root);
    if root in h.scopes {
      hide GenerationsOk, NamesOk, OpenOk, CloseTree;
      CloseTreeScopes(h, root);
      SameGrants(h, k) by { CloseTreeRecords(h, root); }
    }
  }

  lemma CloseTreeRecords(h: Host, root: Text)
    ensures SameObjects(h, CloseTree(h, root)) && SameRecords(h, CloseTree(h, root))
  {
    hide Visible;
  }

  lemma CloseTreeScopes(h: Host, root: Text)
    requires ScopesOk(h) && root in h.scopes
    ensures ScopesOk(CloseTree(h, root))
  {
    hide OpenOk, GenerationsOk, Visible;
    CloseTreeGenerations(h, root);
    CloseTreeOpen(h, root);
  }

  lemma CloseTreeGenerations(h: Host, root: Text)
    requires GenerationsOk(h) && root in h.scopes
    ensures GenerationsOk(CloseTree(h, root))
  {
    hide Visible;
  }

  lemma CloseTreeOpen(h: Host, root: Text)
    requires NamesOk(h) && OpenOk(h) && GenerationsOk(h) && root in h.scopes
    ensures NamesOk(CloseTree(h, root)) && OpenOk(CloseTree(h, root))
  {
    hide Visible, GenerationsOk;
    var k := CloseTree(h, root);
    forall s: nat | s < |k.objects| && k.objects[s].phase == Open && k.objects[s].parent.Some?
      ensures k.objects[k.scopes[k.objects[s].parent.value]].phase == Open
    {
      if Visible(h, h.scopes[root], h.scopes[h.objects[s].parent.value]) {
        ParentStaysOpen(h, h.scopes[root], s);
      }
    }
  }

  /** What `issueGrant` stores hangs from a wider grant one scope up, or from none at a
      root scope. */
  lemma IssueKeeps(h: Host, g: Grant, i: Option<Holder>, now: real, k: Host)
    requires HostOk(h) && Issues(h, g, i, now, Ok(k))
    ensures HostOk(k)
    ensures g.id !in h.grants && g.id in k.grants && g.issuedAt <= now && Valid(k, g.id, now, {})
    ensures forall id :: id in h.grants ==> id in k.grants && k.grants[id] == h.grants[id]
    ensures k == h.(grants := k.grants)
  {
    hide GrantOk, Visible, Valid, Attenuates, OpenOk;
    var s := h.scopes[g.scope];
    var parent := k.grants[g.id].parent;
    assert Bound(h, g, s);
    if parent.Some? {
      assert FirstCarrier(h, parent.value, g, i.value, h.objects[h.scopes[h.objects[s].parent.value]], now);
    }
    StoreKeeps(h, g, s, parent, i.value, now);
  }

  /** `parent` is a carrier found one scope above s. */
  ghost predicate Carried(h: Host, g: Grant, s: nat, parent: Option<Text>, i: Holder, now: real) {
    && IsOpen(h, s) && Bound(h, g, s) && g.holder == i.id && g.principal == i.principal && g.issuedAt <= now < g.expiresAt
    && match parent
       case None => h.objects[s].parent.None?
       case Some(p) =>
         && h.objects[s].parent.Some? && h.objects[s].parent.value in h.scopes
         && h.scopes[h.objects[s].parent.value] < |h.objects|
         && CanCarry(h, p, g, i, h.objects[h.scopes[h.objects[s].parent.value]], now)
  }

  lemma StoreKeeps(h: Host, g: Grant, s: nat, parent: Option<Text>, i: Holder, now: real)
    requires HostOk(h) && g.id !in h.grants && Carried(h, g, s, parent, i, now)
    ensures HostOk(Store(h, g, parent)) && Valid(Store(h, g, parent), g.id, now, {})
  {
    hide Valid, GrantOk;
    var k := Store(h, g, parent);
    assert k.grants.Keys == h.grants.Keys + {g.id} && |k.grants| == |h.grants| + 1 by { StoreGrows(h, g, parent); }
    NewGrantOk(h, g, s, parent, i, now);
    forall id | id in h.grants
      ensures GrantOk(k, k.grants[id])
    {
      OldGrantOk(h, g, parent, id);
    }
    ValidIsConjunction(k, g.id, now, {});
    if parent.Some? {
      ValidIsConjunction(h, parent.value, now, {});
      OldStands(h, g, parent, parent.value, now);
    }
  }

  lemma StoreGrows(h: Host, g: Grant, parent: Option<Text>)
    requires g.id !in h.grants
    ensures Store(h, g, parent).grants.Keys == h.grants.Keys + {g.id} && |Store(h, g, parent).grants| == |h.grants| + 1
  {
    var k := Store(h, g, parent);
    assert |k.grants.Keys| == |k.grants| && |h.grants.Keys| == |h.grants|;
    assert k.grants.Keys == h.grants.Keys + {g.id};
  }

  lemma OneBound(h: Host, k: Host, g: Grant, s: nat)
    requires GenerationsOk(h) && k.objects == h.objects && Bound(h, g, s)
    ensures Bound(k, g, s) && forall t: nat :: Bound(k, g, t) ==> t == s
  {
  }

  lemma NewGrantOk(h: Host, g: Grant, s: nat, parent: Option<Text>, i: Holder, now: real)
    requires HostOk(h) && g.id !in h.grants && Carried(h, g, s, parent, i, now)
    ensures GrantOk(Store(h, g, parent), Store(h, g, parent).grants[g.id])
  {
    hide Valid, GenerationsOk, OpenOk, IsOpen, Bound;
    var k := Store(h, g, parent);
    StoreGrows(h, g, parent);
    OneBound(h, k, g, s);
    if parent.Some? {
      var p := h.grants[parent.value];
      assert k.grants[parent.value] == p;
      assert p.index < |h.grants| by { assert GrantOk(h, p); }
      assert Attenuates(k, Stored(g, false, parent, |h.grants|), p) by { hide GrantOk, GrantsOk; }
    }
  }

  /** k knows all that h knows, about the same scopes. */
  ghost predicate Extends(h: Host, k: Host) {
    && k.objects == h.objects && |h.grants| <= |k.grants|
    && forall id :: id in h.grants ==> id in k.grants && k.grants[id] == h.grants[id]
  }

  lemma SameBounds(h: Host, k: Host)
    requires k.objects == h.objects
    ensures forall r: Grant, s: nat :: Bound(k, r, s) <==> Bound(h, r, s)
  {
  }

  lemma GrantStaysOk(h: Host, k: Host, g: Stored)
    requires Extends(h, k) && GrantOk(h, g)
    ensures GrantOk(k, g)
  {
    hide Bound;
    SameBounds(h, k);
    BoundInside(h, g.record);
  }

  lemma OldGrantOk(h: Host, g: Grant, parent: Option<Text>, id: Text)
    requires GrantsOk(h) && g.id !in h.grants && id in h.grants
    ensures GrantOk(Store(h, g, parent), h.grants[id])
  {
    hide GrantOk;
    StoreGrows(h, g, parent);
    GrantStaysOk(h, Store(h, g, parent), h.grants[id]);
  }

  lemma {:induction false} OldStands(h: Host, g: Grant, parent: Option<Text>, id: Text, now: real)
    requires GrantsOk(h) && GrantsOk(Store(h, g, parent)) && g.id !in h.grants && id in h.grants
    ensures Stands(Store(h, g, parent), id, now) == Stands(h, id, now)
    decreases h.grants[id].index
  {
    hide Bound;
    assert GrantOk(h, h.grants[id]);
    if h.grants[id].parent.Some? {
      OldStands(h, g, parent, h.grants[id].parent.value, now);
    }
  }

  // ------------------------------------------------ what a grant and a scope are worth

  /** The grant has not been revoked, its time is now, and the scope it was given for is
      open in the generation it was given for. */
  ghost predicate InForce(h: Host, g: Stored, now: real) {
    && !g.revoked && g.record.issuedAt <= now && now < g.record.expiresAt
    && exists s: nat :: IsOpen(h, s) && h.objects[s].id == g.record.scope && h.objects[s].generation == g.record.generation
  }

  lemma AloneIsInForce(h: Host, g: Stored, now: real)
    requires NamesOk(h)
    ensures StandsAlone(h, g, now) <==> InForce(h, g, now)
  {
    if StandsAlone(h, g, now) {
      assert IsOpen(h, h.scopes[g.record.scope]);
    }
  }

  /** A grant is valid exactly when it and everything it hangs from are in force. */
  lemma {:induction false} ValidExactly(h: Host, id: Text, now: real)
    requires HostOk(h) && id in h.grants
    ensures Valid(h, id, now, {}) <==> forall a :: a in h.grants && HangsFrom(h, id, a) ==> InForce(h, h.grants[a], now)
    decreases h.grants[id].index
  {
    hide StandsAlone, InForce, Valid, GenerationsOk, OpenOk, GrantOk;
    ValidIsConjunction(h, id, now, {});
    AloneIsInForce(h, h.grants[id], now);
    assert HangsFrom(h, id, id);
    if h.grants[id].parent.Some? {
      ParentIsKnown(h, id);
      var p := h.grants[id].parent.value;
      ValidExactly(h, p, now);
      ValidIsConjunction(h, p, now, {});
      forall a | a in h.grants
        ensures HangsFrom(h, id, a) <==> a == id || HangsFrom(h, p, a)
      {
      }
    }
  }

  lemma ParentIsKnown(h: Host, id: Text)
    requires GrantsOk(h) && id in h.grants && h.grants[id].parent.Some?
    ensures h.grants[id].parent.value in h.grants && h.grants[h.grants[id].parent.value].index < h.grants[id].index
  {
    assert GrantOk(h, h.grants[id]);
  }

  /** `newScope` succeeds exactly when there is room, the name is free and the parent
      open; the scope is open under it, in the next generation of its name. */
  lemma NewScopeExactly(h: Host, id: Text, parent: Option<nat>, owner: Option<Text>)
    requires ScopesOk(h)
    ensures
      var r := NewScope(h, id, parent, owner);
      && (r.Ok? <==>
            && |h.scopes| < h.maxScopes && id !in h.scopes && (parent.Some? ==> IsOpen(h, parent.value))
            && (id !in h.generations ==> |h.generations| < h.maxScopes))
      && (r.Ok? ==>
            var k, s := r.value, |h.objects|;
            && k.objects[..s] == h.objects && |k.objects| == s + 1 && IsOpen(k, s)
            && k.objects[s].id == id && k.objects[s].owner == owner
            && (match parent
                case None => k.objects[s].parent == None
                case Some(p) => k.objects[s].parent == Some(h.objects[p].id))
            && k.objects[s].generation == (if id in h.generations then h.generations[id] + 1 else 1)
            && (forall t: nat :: t < s && h.objects[t].id == id ==> h.objects[t].generation < k.objects[s].generation)
            && (forall n :: n in h.scopes ==> n in k.scopes && k.scopes[n] == h.scopes[n])
            && k.grants == h.grants)
  {
  }

  /** No use can be made of any grant that hangs from a revoked one, however far down,
      and nothing else is touched. */
  lemma RevokedIsDead(h: Host, id: Text, below: Text, now: real)
    requires HostOk(h) && id in h.grants && below in h.grants && HangsFrom(h, below, id)
    ensures HostOk(Revoke(h, id)) && below in Revoke(h, id).grants && !Valid(Revoke(h, id), below, now, {})
    ensures Revoke(h, id) == h.(grants := Revoke(h, id).grants)
    ensures forall g :: g in h.grants && g != id ==> g in Revoke(h, id).grants && Revoke(h, id).grants[g] == h.grants[g]
  {
    hide ScopesOk, GrantOk, Valid;
    RevokeKeeps(h, id);
    SameChain(h, Revoke(h, id), below, id);
    ChainAttenuates(Revoke(h, id), below, id, now);
  }

  lemma {:induction false} SameChain(h: Host, k: Host, id: Text, top: Text)
    requires GrantsOk(h) && GrantsOk(k) && SameRecords(h, k) && id in h.grants && HangsFrom(h, id, top)
    ensures HangsFrom(k, id, top)
    decreases h.grants[id].index
  {
    hide GrantOk;
    if id != top {
      ParentIsKnown(h, id);
      SameChain(h, k, h.grants[id].parent.value, top);
    }
  }

  /** When an instance is disposed of no grant it held can be used, nor what hangs from
      one; other instances' grants are as before. */
  lemma HolderIsDead(h: Host, holder: Text, id: Text, now: real)
    requires HostOk(h) && id in h.grants
    ensures HostOk(RevokeHolder(h, holder)) && id in RevokeHolder(h, holder).grants
    ensures h.grants[id].record.holder == holder ==> !Valid(RevokeHolder(h, holder), id, now, {})
    ensures h.grants[id].record.holder != holder ==> RevokeHolder(h, holder).grants[id] == h.grants[id]
    ensures RevokeHolder(h, holder) == h.(grants := RevokeHolder(h, holder).grants)
  {
    hide ScopesOk, GrantsOk;
    RevokeHolderKeeps(h, holder);
  }

  /** Closing a tree closes exactly the scopes at or below its root: none of them is open
      or can be used through any grant, and nothing else is touched. */
  lemma ClosedIsDead(h: Host, root: Text, s: nat)
    requires HostOk(h) && root in h.scopes && Mapped(h, s)
    ensures
      var k := CloseTree(h, root);
      && |k.objects| == |h.objects| && k == h.(objects := k.objects, grants := k.grants)
      && if Visible(h, h.scopes[root], s)
         then k.objects[s].phase == Closing && Gone(k, h.objects[s].id, h.objects[s].generation)
         else k.objects[s] == h.objects[s]
  {
    hide GrantsOk, OpenOk, Visible;
  }

  /** Visible from a scope: the scope itself, and what is visible from its parent. */
  lemma VisibleSteps(h: Host, provider: nat, consumer: nat)
    ensures Visible(h, provider, consumer) <==>
      consumer < |h.objects|
      && (provider == consumer
          || (h.objects[consumer].parent.Some? && h.objects[consumer].parent.value in h.scopes
              && Visible(h, provider, h.scopes[h.objects[consumer].parent.value])))
  {
    if Visible(h, provider, consumer) {
      var n: nat :| Up(h, consumer, n) == Some(provider);
      if n > 0 {
        assert Up(h, h.scopes[h.objects[consumer].parent.value], n - 1) == Some(provider);
      }
    }
    if consumer < |h.objects| {
      assert Up(h, consumer, 0) == Some(consumer);
      if h.objects[consumer].parent.Some? && h.objects[consumer].parent.value in h.scopes {
        var p := h.scopes[h.objects[consumer].parent.value];
        if Visible(h, provider, p) {
          var n: nat :| Up(h, p, n) == Some(provider);
          assert Up(h, consumer, n + 1) == Some(provider);
        }
      }
    }
  }

  lemma ClosedGrants(h: Host, root: Text, id: Text, now: real)
    requires HostOk(h) && root in h.scopes && id in h.grants
    ensures
      var k := CloseTree(h, root);
      && id in k.grants
      && if h.grants[id].record.scope in h.scopes && Visible(h, h.scopes[root], h.scopes[h.grants[id].record.scope])
         then !Valid(k, id, now, {}) else k.grants[id] == h.grants[id]
  {
    hide GrantsOk, ScopesOk, Visible;
  }

  /** A scope leaves the map only from closing; its name is free then. */
  lemma DroppedIsFree(h: Host, s: nat)
    requires HostOk(h) && Mapped(h, s)
    ensures
      var k := DropScope(h, s);
      if h.objects[s].phase == Closing
      then k.scopes == h.scopes - {h.objects[s].id} && k.objects == h.objects[s := h.objects[s].(phase := Closed)]
           && k == h.(objects := k.objects, scopes := k.scopes)
      else k == h
  {
  }

  // ------------------------------------------------------------ who can be given what

  /** Some grant of the instance one scope up is as wide and as long. */
  ghost predicate HasCarrier(h: Host, g: Grant, i: Holder, above: Scope, now: real)
    requires GrantsOk(h)
  {
    exists p :: p in h.grants && GivenFor(h.grants[p].record, i, above, g.kind, g.resource, g.operations)
                && h.grants[p].record.expiresAt >= g.expiresAt && Stands(h, p, now)
  }

  lemma CarriesExactly(h: Host, g: Grant, i: Holder, above: Scope, now: real)
    requires GrantsOk(h)
    ensures (exists p :: CanCarry(h, p, g, i, above, now)) <==> HasCarrier(h, g, i, above, now)
  {
    hide GrantsOk, Valid, Stands;
    forall p
      ensures CanCarry(h, p, g, i, above, now) <==>
        p in h.grants && GivenFor(h.grants[p].record, i, above, g.kind, g.resource, g.operations)
        && h.grants[p].record.expiresAt >= g.expiresAt && Stands(h, p, now)
    {
      if p in h.grants {
        ValidIsConjunction(h, p, now, {});
      }
    }
  }

  /** The scope the grant names is open in that generation, and the instance lives at or
      below it or owns it. */
  ghost predicate InReach(h: Host, g: Grant, i: Holder, s: nat) {
    && IsOpen(h, s) && h.objects[s].id == g.scope && h.objects[s].generation == g.generation
    && (Visible(h, s, i.home) || h.objects[s].owner == Some(i.id))
  }

  ghost predicate Issuable(h: Host, g: Grant, i: Option<Holder>, now: real)
    requires GrantsOk(h)
  {
    && |h.grants| < h.maxGrants && g.id !in h.grants
    && i.Some? && g.holder == i.value.id && g.principal == i.value.principal && !i.value.ended
    && g.issuedAt <= now < g.expiresAt
    && exists s: nat :: InReach(h, g, i.value, s)
         && (h.objects[s].parent.Some? ==>
               exists a: nat :: IsOpen(h, a) && h.objects[a].id == h.objects[s].parent.value && HasCarrier(h, g, i.value, h.objects[a], now))
  }

  /** `issueGrant` stores a grant exactly for a known instance that has not ended, in an
      open scope within its reach, while it lasts, and below a root only under a grant
      that is as wide and as long; what it stores is the grant, not revoked. */
  lemma IssuesExactly(h: Host, g: Grant, i: Option<Holder>, now: real)
    requires HostOk(h)
    ensures (exists k :: Issues(h, g, i, now, Ok(k))) <==> Issuable(h, g, i, now)
    ensures forall k :: Issues(h, g, i, now, Ok(k)) ==> g.id in k.grants && k.grants[g.id].record == g && !k.grants[g.id].revoked
  {
    hide GrantsOk, GenerationsOk, CanCarry, HasCarrier, Visible;
    if Issuable(h, g, i, now) {
      IssuableIssues(h, g, i, now);
    }
    if k :| Issues(h, g, i, now, Ok(k)) {
      IssuesIssuable(h, g, i, now, k);
    }
    forall k | Issues(h, g, i, now, Ok(k))
      ensures g.id in k.grants && k.grants[g.id].record == g && !k.grants[g.id].revoked
    {
      hide FirstCarrier;
    }
  }

  lemma IssuesIssuable(h: Host, g: Grant, i: Option<Holder>, now: real, k: Host)
    requires HostOk(h) && Issues(h, g, i, now, Ok(k))
    ensures Issuable(h, g, i, now)
  {
    hide GrantsOk, GenerationsOk, CanCarry, HasCarrier, Visible;
    var s := h.scopes[g.scope];
    assert InReach(h, g, i.value, s);
    if h.objects[s].parent.Some? {
      var a := h.scopes[h.objects[s].parent.value];
      CarriesExactly(h, g, i.value, h.objects[a], now);
      assert IsOpen(h, a);
    }
  }

  lemma IssuableIssues(h: Host, g: Grant, i: Option<Holder>, now: real)
    requires HostOk(h) && Issuable(h, g, i, now)
    ensures exists k :: Issues(h, g, i, now, Ok(k))
  {
    hide GrantsOk, GenerationsOk, CanCarry, HasCarrier, Visible;
    var s: nat :| InReach(h, g, i.value, s)
      && (h.objects[s].parent.Some? ==>
            exists a: nat :: IsOpen(h, a) && h.objects[a].id == h.objects[s].parent.value && HasCarrier(h, g, i.value, h.objects[a], now));
    if h.objects[s].parent.None? {
      assert Issues(h, g, i, now, Ok(Store(h, g, None)));
    } else {
      var a := h.scopes[h.objects[s].parent.value];
      CarriesExactly(h, g, i.value, h.objects[a], now);
      var p := SomeFirst(h, g, i.value, h.objects[a], now);
      assert Issues(h, g, i, now, Ok(Store(h, g, Some(p))));
    }
  }

  /** Among the carriers there is a first. */
  lemma SomeFirst(h: Host, g: Grant, i: Holder, above: Scope, now: real) returns (p: Text)
    requires exists q :: CanCarry(h, q, g, i, above, now)
    ensures FirstCarrier(h, p, g, i, above, now)
  {
    hide Valid, Matches;
    var carriers := set q | q in h.grants && CanCarry(h, q, g, i, above, now);
    assert carriers != {} by {
      var q :| CanCarry(h, q, g, i, above, now);
      assert q in carriers;
    }
    hide CanCarry;
    p := Oldest(h, carriers);
    assert forall q :: CanCarry(h, q, g, i, above, now) ==> q in carriers by { CarriersKnown(h, g, i, above, now); }
  }

  lemma CarriersKnown(h: Host, g: Grant, i: Holder, above: Scope, now: real)
    ensures forall q :: CanCarry(h, q, g, i, above, now) ==> q in h.grants
  {
    hide Valid, Matches;
  }

  lemma {:induction false} Oldest(h: Host, s: set<Text>) returns (p: Text)
    requires s != {} && s <= h.grants.Keys
    ensures p in s && forall q :: q in s ==> h.grants[p].index <= h.grants[q].index
    decreases |s|
  {
    p :| p in s;
    if s != {p} {
      var q := Oldest(h, s - {p});
      p := if h.grants[q].index < h.grants[p].index then q else p;
    }
  }

  // -------------------------------------------------------------------- runs

  datatype Event =
    | Created(id: Text, parent: Option<nat>, owner: Option<Text>)
    | Issued(grant: Grant, holder: Option<Holder>)
    | Revoked(id: Text)
    | Ended(instance: Text)
    | Destroyed(root: Text)
    | Dropped(scope: nat)

  /** One operation at time `now`; one that throws changes nothing. */
  ghost predicate Step(h: Host, e: Event, now: real, k: Host) {
    match e
    case Created(id, parent, owner) => k == match NewScope(h, id, parent, owner) { case Ok(m) => m case Err(_) => h }
    case Issued(g, i) => exists r :: Issues(h, g, i, now, r) && k == match r { case Ok(m) => m case Err(_) => h }
    case Revoked(id) => k == Revoke(h, id)
    case Ended(holder) => k == RevokeHolder(h, holder)
    case Destroyed(root) => k == CloseTree(h, root)
    case Dropped(s) => k == DropScope(h, s)
  }

  lemma StepKeeps(h: Host, e: Event, now: real, k: Host)
    requires HostOk(h) && Step(h, e, now, k)
    ensures HostOk(k)
  {
    hide HostOk, Issues, NewScope, CloseTree, DropScope, Revoke, RevokeHolder;
    match e
    case Created(id, parent, owner) => if NewScope(h, id, parent, owner).Ok? { NewScopeKeeps(h, id, parent, owner); }
    case Issued(g, i) =>
      var r :| Issues(h, g, i, now, r) && k == match r { case Ok(m) => m case Err(_) => h };
      if r.Ok? { IssueKeeps(h, g, i, now, r.value); }
    case Revoked(id) => RevokeKeeps(h, id);
    case Ended(holder) => RevokeHolderKeeps(h, holder);
    case Destroyed(root) => CloseTreeKeeps(h, root);
    case Dropped(s) => DropScopeKeeps(h, s);
  }

  /** Issuing touches nothing but the grants, and adds at most one. */
  lemma IssuedAddsOnly(h: Host, e: Event, now: real, k: Host)
    requires HostOk(h) && e.Issued? && Step(h, e, now, k)
    ensures k == h.(grants := k.grants)
    ensures forall id :: id in h.grants ==> id in k.grants && k.grants[id] == h.grants[id]
  {
    hide HostOk, Issues;
    var r :| Issues(h, e.grant, e.holder, now, r) && k == match r { case Ok(m) => m case Err(_) => h };
    if r.Ok? {
      IssueKeeps(h, e.grant, e.holder, now, r.value);
    }
  }

  /** What ended for good: the grant was revoked, its time is over, or the scope it was
      bound to is no longer open under its name and generation. */
  ghost predicate Spent(h: Host, g: Stored, now: real) {
    && g.record.scope in h.generations && g.record.generation <= h.generations[g.record.scope]
    && (|| g.revoked || now >= g.record.expiresAt
        || g.record.scope !in h.scopes
        || h.scopes[g.record.scope] >= |h.objects|
        || h.objects[h.scopes[g.record.scope]].generation != g.record.generation
        || h.objects[h.scopes[g.record.scope]].phase != Open)
  }

  /** No operation and no passing of time brings a spent grant back. */
  lemma SpentStays(h: Host, e: Event, now: real, later: real, k: Host, id: Text)
    requires HostOk(h) && Step(h, e, now, k) && now <= later
    requires id in h.grants && Spent(h, h.grants[id], now)
    ensures id in k.grants && k.grants[id].record == h.grants[id].record && k.grants[id].parent == h.grants[id].parent
    ensures Spent(k, k.grants[id], later)
  {
    hide GrantsOk, Issues, Visible, OpenOk;
    if e.Issued? {
      IssuedAddsOnly(h, e, now, k);
    }
  }

  /** Nothing is ever issued before its time. */
  ghost predicate IssuedBy(h: Host, now: real) {
    forall id :: id in h.grants ==> h.grants[id].record.issuedAt <= now
  }

  lemma StepIssues(h: Host, e: Event, now: real, k: Host)
    requires HostOk(h) && Step(h, e, now, k) && IssuedBy(h, now)
    ensures IssuedBy(k, now)
  {
    hide GrantOk, Issues, Visible;
    if e.Issued? {
      var r :| Issues(h, e.grant, e.holder, now, r) && k == match r { case Ok(m) => m case Err(_) => h };
      if r.Ok? {
        IssueKeeps(h, e.grant, e.holder, now, r.value);
        OnlyOneIssued(h, e.grant, e.holder, now, r.value);
      }
    }
  }

  lemma OnlyOneIssued(h: Host, g: Grant, i: Option<Holder>, now: real, k: Host)
    requires Issues(h, g, i, now, Ok(k))
    ensures forall id :: id in k.grants ==> id in h.grants || id == g.id
    ensures g.id in k.grants && k.grants[g.id].record == g
  {
    hide Visible, FirstCarrier, CanCarry;
  }

  lemma AloneOrSpent(h: Host, id: Text, now: real)
    requires HostOk(h) && id in h.grants && IssuedBy(h, now)
    ensures StandsAlone(h, h.grants[id], now) != Spent(h, h.grants[id], now)
  {
    assert GrantOk(h, h.grants[id]);
    var s: nat :| Bound(h, h.grants[id].record, s);
  }

  /** A chain that is broken stays broken. */
  lemma {:induction false} BrokenStays(h: Host, e: Event, now: real, at: real, later: real, k: Host, id: Text)
    requires HostOk(h) && HostOk(k) && Step(h, e, at, k) && now <= at <= later && IssuedBy(h, now) && IssuedBy(k, later)
    requires id in h.grants && !Stands(h, id, now)
    ensures id in k.grants && !Stands(k, id, later)
    decreases h.grants[id].index
  {
    hide Step, StandsAlone, Spent, NamesOk, GenerationsOk, OpenOk, GrantOk;
    assert GrantOk(h, h.grants[id]);
    StepKeepsRecord(h, e, at, k, id);
    if StandsAlone(h, h.grants[id], now) {
      assert h.grants[id].parent.Some? by { assert !Stands(h, id, now); }
      ParentIsKnown(h, id);
      BrokenStays(h, e, now, at, later, k, h.grants[id].parent.value);
    } else {
      AloneOrSpent(h, id, now);
      StillSpent(h, h.grants[id], now, at);
      SpentStays(h, e, at, later, k, id);
      AloneOrSpent(k, id, later);
    }
  }

  lemma StillSpent(h: Host, g: Stored, now: real, later: real)
    requires Spent(h, g, now) && now <= later
    ensures Spent(h, g, later)
  {
  }

  lemma StepKeepsRecord(h: Host, e: Event, now: real, k: Host, id: Text)
    requires HostOk(h) && Step(h, e, now, k) && id in h.grants
    ensures id in k.grants && k.grants[id].record == h.grants[id].record && k.grants[id].parent == h.grants[id].parent
    ensures h.grants[id].revoked ==> k.grants[id].revoked
  {
    hide GrantOk, Issues, Visible;
    if e.Issued? {
      IssuedAddsOnly(h, e, now, k);
    }
  }

  /** A host from its first scope on, under a clock that never goes back. */
  ghost predicate History(hs: seq<Host>, es: seq<Event>, clock: seq<real>) {
    && |hs| == |es| + 1 && |clock| == |hs|
    && hs[0].objects == [] && hs[0].scopes == map[] && hs[0].generations == map[] && hs[0].grants == map[]
    && (forall i :: 0 <= i < |es| ==> Step(hs[i], es[i], clock[i + 1], hs[i + 1]))
    && (forall i, j :: 0 <= i <= j < |clock| ==> clock[i] <= clock[j])
  }

  lemma {:induction false} HistoryKeeps(hs: seq<Host>, es: seq<Event>, clock: seq<real>, i: nat)
    requires History(hs, es, clock) && i < |hs|
    ensures HostOk(hs[i]) && IssuedBy(hs[i], clock[i])
  {
    hide Step;
    if i == 0 {
      EmptyHost(hs[0]);
    } else {
      HistoryKeeps(hs, es, clock, i - 1);
      assert Step(hs[i - 1], es[i - 1], clock[i - 1 + 1], hs[i - 1 + 1]);
      StepKeeps(hs[i - 1], es[i - 1], clock[i], hs[i]);
      StepIssues(hs[i - 1], es[i - 1], clock[i], hs[i]);
    }
  }

  lemma EmptyHost(h: Host)
    requires h.objects == [] && h.scopes == map[] && h.generations == map[] && h.grants == map[]
    ensures HostOk(h)
  {
  }

  /** Once a grant is not valid it never is again, whatever is issued, created or
      destroyed later and whichever names are used again. */
  lemma {:induction false} NeverRevives(hs: seq<Host>, es: seq<Event>, clock: seq<real>, i: nat, j: nat, id: Text)
    requires History(hs, es, clock) && i <= j < |hs|
    requires id in hs[i].grants && !Valid(hs[i], id, clock[i], {})
    ensures id in hs[j].grants && !Valid(hs[j], id, clock[j], {})
    decreases j
  {
    hide Step, HostOk, Valid;
    if j > i {
      NeverRevives(hs, es, clock, i, j - 1, id);
      HistoryKeeps(hs, es, clock, j - 1);
      HistoryKeeps(hs, es, clock, j);
      assert Step(hs[j - 1], es[j - 1], clock[j - 1 + 1], hs[j - 1 + 1]);
      Reviving(hs[j - 1], es[j - 1], clock[j - 1], clock[j], hs[j], id);
    }
  }

  lemma Reviving(h: Host, e: Event, now: real, later: real, k: Host, id: Text)
    requires HostOk(h) && HostOk(k) && Step(h, e, later, k) && now <= later && IssuedBy(h, now) && IssuedBy(k, later)
    requires id in h.grants && !Valid(h, id, now, {})
    ensures id in k.grants && !Valid(k, id, later, {})
  {
    hide Step, StandsAlone, ScopesOk, GrantOk, IssuedBy;
    ValidIsConjunction(h, id, now, {});
    BrokenStays(h, e, now, later, later, k, id);
    ValidIsConjunction(k, id, later, {});
  }

  /** This generation of this name has been there and is not open. */
  ghost predicate Gone(h: Host, scope: Text, generation: nat) {
    && scope in h.generations && generation <= h.generations[scope]
    && !(scope in h.scopes && h.scopes[scope] < |h.objects|
         && h.objects[h.scopes[scope]].generation == generation && h.objects[h.scopes[scope]].phase == Open)
  }

  lemma GoneStays(h: Host, e: Event, now: real, k: Host, scope: Text, generation: nat)
    requires HostOk(h) && Step(h, e, now, k) && Gone(h, scope, generation)
    ensures Gone(k, scope, generation)
  {
    hide GrantsOk, Issues, Visible;
    if e.Issued? {
      IssuedAddsOnly(h, e, now, k);
    }
  }

  /** Once a scope generation has closed, no grant bound to it, old or new, is valid at
      any later time, even while the same name is open again. */
  lemma {:induction false} GenerationStaysGone(hs: seq<Host>, es: seq<Event>, clock: seq<real>, i: nat, j: nat, scope: Text, generation: nat)
    requires History(hs, es, clock) && i <= j < |hs| && Gone(hs[i], scope, generation)
    ensures Gone(hs[j], scope, generation)
    ensures forall id, now ::
      (id in hs[j].grants && hs[j].grants[id].record.scope == scope && hs[j].grants[id].record.generation == generation)
      ==> !Valid(hs[j], id, now, {})
    decreases j
  {
    hide Step, HostOk;
    if j > i {
      GenerationStaysGone(hs, es, clock, i, j - 1, scope, generation);
      HistoryKeeps(hs, es, clock, j - 1);
      assert Step(hs[j - 1], es[j - 1], clock[j - 1 + 1], hs[j - 1 + 1]);
      GoneStays(hs[j - 1], es[j - 1], clock[j], hs[j], scope, generation);
    }
  }

  // --------------------------------------------------------------- authorize

  /** The grants that would do. */
  ghost function Fitting(h: Host, i: Holder, s: nat, kind: Kind, resource: Text, operations: set<Text>, now: real): set<Text>
    requires s < |h.objects|
  {
    set id | id in h.grants && Fits(h, id, i, s, kind, resource, operations, now)
  }

  predicate Fits(h: Host, id: Text, i: Holder, s: nat, kind: Kind, resource: Text, operations: set<Text>, now: real)
    requires s < |h.objects|
  {
    && id in h.grants
    && Matches(h.grants[id].record, i, h.objects[s].id, h.objects[s].generation, kind, resource)
    && operations <= h.grants[id].record.operations
    && Valid(h, id, now, {})
  }

  /** `authorize`: the fitting grant with the least id, or the very grant, at the very
      revision, an earlier call was bound to. */
  ghost function Authorize(h: Host, i: Holder, s: nat, kind: Kind, resource: Text, operations: set<Text>,
                           bound: Option<(Text, int)>, now: real): Result<(Text, int)> {
    if !IsOpen(h, s) then Err(FAILED_PRECONDITION)
    else
      var fitting := Fitting(h, i, s, kind, resource, operations, now);
      match bound
      case None =>
        if fitting == {} then Err(PERMISSION_DENIED)
        else Ok((MinKey(fitting), h.grants[MinKey(fitting)].record.revision))
      case Some((id, revision)) =>
        if id in fitting && h.grants[id].record.revision == revision then Ok((id, revision)) else Err(PERMISSION_DENIED)
  }

  /** Whatever is authorized anywhere was granted at the root: the operations are within
      those of every grant the chosen one hangs from, up to one given at a root scope,
      and every one of them stands at this moment. */
  lemma AuthorityComesFromTheRoot(h: Host, i: Holder, s: nat, kind: Kind, resource: Text, operations: set<Text>,
                                  bound: Option<(Text, int)>, now: real) returns (top: Text)
    requires HostOk(h) && Authorize(h, i, s, kind, resource, operations, bound, now).Ok?
    ensures
      var id := Authorize(h, i, s, kind, resource, operations, bound, now).value.0;
      && id in h.grants && HangsFrom(h, id, top) && top in h.grants && h.grants[top].parent.None?
      && (forall a :: a in h.grants && HangsFrom(h, id, a) ==>
            && operations <= h.grants[a].record.operations
            && h.grants[a].record.holder == i.id && h.grants[a].record.principal == i.principal
            && h.grants[a].record.kind == kind && h.grants[a].record.resource == resource
            && StandsAlone(h, h.grants[a], now))
      && GivenFor(h.grants[id].record, i, h.objects[s], kind, resource, operations)
      && (forall n: nat :: Up(h, s, n).Some? ==> IsOpen(h, Up(h, s, n).value))
  {
    hide StandsAlone, Valid, GrantOk, ScopesOk;
    var id := Authorize(h, i, s, kind, resource, operations, bound, now).value.0;
    assert Fits(h, id, i, s, kind, resource, operations, now);
    top := ChainReachesRoot(h, id);
    forall a | a in h.grants && HangsFrom(h, id, a)
      ensures operations <= h.grants[a].record.operations && h.grants[a].record.holder == i.id
      ensures h.grants[a].record.principal == i.principal && h.grants[a].record.kind == kind
      ensures h.grants[a].record.resource == resource && StandsAlone(h, h.grants[a], now)
    {
      ChainAttenuates(h, id, a, now);
    }
    forall n: nat | Up(h, s, n).Some?
      ensures IsOpen(h, Up(h, s, n).value)
    {
      OpenAllTheWayUp(h, s, n);
    }
  }

  /** The grant was given to this very instance, for this use of this resource in this
      scope and its present generation, and covers the operations. */
  predicate GivenFor(g: Grant, i: Holder, scope: Scope, kind: Kind, resource: Text, operations: set<Text>) {
    && g.holder == i.id && g.principal == i.principal
    && g.scope == scope.id && g.generation == scope.generation
    && g.kind == kind && g.resource == resource && operations <= g.operations
  }

  /** The record exists, is meant for the call and stands with its whole chain. */
  ghost predicate Serves(h: Host, id: Text, i: Holder, s: nat, kind: Kind, resource: Text, operations: set<Text>, now: real)
    requires GrantsOk(h) && s < |h.objects|
  {
    id in h.grants && GivenFor(h.grants[id].record, i, h.objects[s], kind, resource, operations) && Stands(h, id, now)
  }

  lemma FitsServes(h: Host, i: Holder, s: nat, kind: Kind, resource: Text, operations: set<Text>, now: real)
    requires GrantsOk(h) && s < |h.objects|
    ensures forall id :: Fits(h, id, i, s, kind, resource, operations, now) <==> Serves(h, id, i, s, kind, resource, operations, now)
  {
    hide GrantsOk, Valid, Stands;
    forall id
      ensures Fits(h, id, i, s, kind, resource, operations, now) <==> Serves(h, id, i, s, kind, resource, operations, now)
    {
      if id in h.grants {
        ValidIsConjunction(h, id, now, {});
      }
    }
  }

  /** Unbound, `authorize` answers exactly when the scope is open and some grant serves;
      it names the one with the least id, at its present revision. */
  lemma AuthorizesExactly(h: Host, i: Holder, s: nat, kind: Kind, resource: Text, operations: set<Text>, now: real)
    requires GrantsOk(h) && s < |h.objects|
    ensures
      var r := Authorize(h, i, s, kind, resource, operations, None, now);
      && (r.Ok? <==> IsOpen(h, s) && exists id :: Serves(h, id, i, s, kind, resource, operations, now))
      && (r.Ok? ==>
            && Serves(h, r.value.0, i, s, kind, resource, operations, now)
            && r.value.1 == h.grants[r.value.0].record.revision
            && forall id :: Serves(h, id, i, s, kind, resource, operations, now) && id != r.value.0 ==> Less(r.value.0, id))
      && (r.Err? ==> r.code == if IsOpen(h, s) then PERMISSION_DENIED else FAILED_PRECONDITION)
  {
    hide GrantsOk, Fits, Serves, Less, IsOpen;
    FitsServes(h, i, s, kind, resource, operations, now);
    FittingAre(h, i, s, kind, resource, operations, now);
    var fitting := Fitting(h, i, s, kind, resource, operations, now);
    if IsOpen(h, s) && fitting != {} {
      assert MinKey(fitting) in fitting;
    } else if exists id :: Serves(h, id, i, s, kind, resource, operations, now) {
      var id :| Serves(h, id, i, s, kind, resource, operations, now);
      assert id in fitting;
    }
  }

  lemma FittingAre(h: Host, i: Holder, s: nat, kind: Kind, resource: Text, operations: set<Text>, now: real)
    requires s < |h.objects|
    ensures forall id :: id in Fitting(h, i, s, kind, resource, operations, now) <==> Fits(h, id, i, s, kind, resource, operations, now)
    ensures forall id :: Fits(h, id, i, s, kind, resource, operations, now) ==> id in h.grants
  {
    hide Valid, Matches;
  }

  /** Bound to an earlier call's grant it answers exactly when that very grant still
      serves, at that very revision. */
  lemma RechecksExactly(h: Host, i: Holder, s: nat, kind: Kind, resource: Text, operations: set<Text>, id: Text, revision: int, now: real)
    requires GrantsOk(h) && s < |h.objects|
    ensures
      var r := Authorize(h, i, s, kind, resource, operations, Some((id, revision)), now);
      && (r.Ok? <==> IsOpen(h, s) && Serves(h, id, i, s, kind, resource, operations, now) && h.grants[id].record.revision == revision)
      && (r.Ok? ==> r.value == (id, revision))
      && (r.Err? ==> r.code == if IsOpen(h, s) then PERMISSION_DENIED else FAILED_PRECONDITION)
  {
    hide GrantsOk, Fits, Serves, IsOpen;
    FitsServes(h, i, s, kind, resource, operations, now);
    FittingAre(h, i, s, kind, resource, operations, now);
    if Serves(h, id, i, s, kind, resource, operations, now) {
      assert id in h.grants;
    }
  }

  lemma CheckServes(h: Host, i: Holder, s: nat, kind: Kind, resource: Text, operations: set<Text>, bound: Option<(Text, int)>, now: real)
    requires HostOk(h) && s < |h.objects|
    ensures
      var r := Authorize(h, i, s, kind, resource, operations, bound, now);
      r.Ok? ==> Serves(h, r.value.0, i, s, kind, resource, operations, now)
  {
    hide GrantsOk, ScopesOk, Serves, Authorize;
    match bound
    case None => AuthorizesExactly(h, i, s, kind, resource, operations, now);
    case Some((id, revision)) => RechecksExactly(h, i, s, kind, resource, operations, id, revision, now);
  }

  lemma OpenNeverReturns(h: Host, e: Event, now: real, k: Host, s: nat)
    requires HostOk(h) && Step(h, e, now, k) && s < |h.objects| && !IsOpen(h, s)
    ensures s < |k.objects| && !IsOpen(k, s)
    ensures k.objects[s].id == h.objects[s].id && k.objects[s].generation == h.objects[s].generation
  {
    hide GrantsOk, Issues, Visible;
    if e.Issued? {
      IssuedAddsOnly(h, e, now, k);
    }
  }

  lemma StepKeepsObjects(h: Host, e: Event, now: real, k: Host)
    requires HostOk(h) && Step(h, e, now, k)
    ensures SameObjects(h, k)
  {
    hide GrantsOk, Issues, Visible;
    if e.Issued? {
      IssuedAddsOnly(h, e, now, k);
    }
  }

  /** A binding that has once been refused is refused for ever. */
  lemma {:induction false} BindingNeverRecovers(hs: seq<Host>, es: seq<Event>, clock: seq<real>, i: nat, j: nat,
                                                who: Holder, s: nat, kind: Kind, resource: Text, operations: set<Text>, id: Text, revision: int)
    requires History(hs, es, clock) && i <= j < |hs|
    requires s < |hs[i].objects| && id in hs[i].grants
    requires Authorize(hs[i], who, s, kind, resource, operations, Some((id, revision)), clock[i]).Err?
    ensures s < |hs[j].objects| && id in hs[j].grants
    ensures Authorize(hs[j], who, s, kind, resource, operations, Some((id, revision)), clock[j]).Err?
    decreases j
  {
    hide Step, HostOk, Valid, IssuedBy, IsOpen;
    if j > i {
      BindingNeverRecovers(hs, es, clock, i, j - 1, who, s, kind, resource, operations, id, revision);
      HistoryKeeps(hs, es, clock, j - 1);
      var h, k := hs[j - 1], hs[j];
      assert Step(h, es[j - 1], clock[j - 1 + 1], hs[j - 1 + 1]);
      StepKeepsObjects(h, es[j - 1], clock[j], k);
      StepKeepsRecord(h, es[j - 1], clock[j], k, id);
      if !IsOpen(h, s) {
        OpenNeverReturns(h, es[j - 1], clock[j], k, s);
      } else if !Valid(h, id, clock[j - 1], {}) {
        NeverRevives(hs, es, clock, j - 1, j, id);
      }
    }
  }

  // --------------------------------------------------------------- the class

  class Keeper {
    const maxScopes: nat
    const maxGrants: nat
    var objects: seq<Scope>
    var scopes: map<Text, nat>
    var generations: map<Text, nat>
    var grants: map<Text, Stored>

    ghost function View(): Host
      reads this
    {
      Host(objects, scopes, generations, grants, maxScopes, maxGrants)
    }

    ghost predicate Ok()
      reads this
    {
      HostOk(View())
    }

    constructor (scopeLimit: nat, grantLimit: nat)
      ensures Ok() && View() == Host([], map[], map[], map[], scopeLimit, grantLimit)
    {
      maxScopes, maxGrants := scopeLimit, grantLimit;
      objects, scopes, generations, grants := [], map[], map[], map[];
    }

    method CreateScope(id: Text, parent: Option<nat>, owner: Option<Text>) returns (r: Result<nat>)
      requires Ok()
      modifies this
      ensures Ok()
      ensures
        match NewScope(old(View()), id, parent, owner)
        case Ok(k) => r == Result.Ok(old(|objects|)) && View() == k
        case Err(code) => r == Err(code) && View() == old(View())
    {
      hide HostOk;
      if NewScope(View(), id, parent, owner).Ok? {
        NewScopeKeeps(View(), id, parent, owner);
      }
      if !(|scopes| < maxScopes && (id in generations || |generations| < maxScopes)) {
        return Err(RESOURCE_EXHAUSTED);
      }
      if id in scopes {
        return Err(CONFLICT);
      }
      var above := None;
      if parent.Some? {
        var s := parent.value;
        if !(s < |objects| && objects[s].id in scopes && scopes[objects[s].id] == s && objects[s].phase == Open) {
          return Err(FAILED_PRECONDITION);
        }
        above := Some(objects[s].id);
      }
      var generation := (if id in generations then generations[id] else 0) + 1;
      r := Result.Ok(|objects|);
      scopes := scopes[id := |objects|];
      generations := generations[id := generation];
      objects := objects + [Scope(id, above, generation, owner, Open)];
    }

    method RevokeGrant(id: Text) returns (found: bool)
      requires Ok()
      modifies this
      ensures Ok() && View() == Revoke(old(View()), id) && found == (id in old(grants))
    {
      hide HostOk;
      RevokeKeeps(View(), id);
      found := id in grants;
      if found {
        grants := grants[id := grants[id].(revoked := true)];
      }
    }

    /** The loop `dispose` runs over the grants. */
    method RevokeAll(holder: Text)
      requires Ok()
      modifies this
      ensures Ok() && View() == RevokeHolder(old(View()), holder)
    {
      hide HostOk;
      ghost var h := View();
      RevokeHolderKeeps(h, holder);
      ghost var goal := RevokeHolder(h, holder).grants;
      var todo := grants.Keys;
      while todo != {}
        invariant todo <= h.grants.Keys && View() == h.(grants := grants) && grants.Keys == h.grants.Keys
        invariant forall g :: g in grants ==> grants[g] == if g in todo then h.grants[g] else goal[g]
        decreases |todo|
      {
        var g :| g in todo;
        todo := todo - {g};
        if grants[g].record.holder == holder {
          grants := grants[g := grants[g].(revoked := true)];
        }
      }
      assert grants == goal;
    }

    /** `authorize`. */
    method Check(i: Holder, s: nat, kind: Kind, resource: Text, operations: set<Text>, bound: Option<(Text, int)>, now: real)
      returns (r: Result<(Text, int)>)
      requires Ok() && s < |objects|
      ensures r == Authorize(View(), i, s, kind, resource, operations, bound, now)
      ensures r.Ok? ==> Serves(View(), r.value.0, i, s, kind, resource, operations, now)
    {
      CheckServes(View(), i, s, kind, resource, operations, bound, now);
      hide HostOk, Valid, Matches, Serves;
      var scope := objects[s];
      if !(scope.id in scopes && scopes[scope.id] == s && scope.phase == Open) {
        return Err(FAILED_PRECONDITION);
      }
      var h := Host(objects, scopes, generations, grants, maxScopes, maxGrants);
      if bound.Some? {
        var id := bound.value.0;
        if id in grants && Fits(h, id, i, s, kind, resource, operations, now) && grants[id].record.revision == bound.value.1 {
          return Result.Ok(bound.value);
        }
        return Err(PERMISSION_DENIED);
      }
      var best := LeastFitting(i, s, kind, resource, operations, now);
      if best.None? {
        return Err(PERMISSION_DENIED);
      }
      r := Result.Ok((best.value, grants[best.value].record.revision));
    }

    /** The search over the grants for the fitting one with the least id. */
    method LeastFitting(i: Holder, s: nat, kind: Kind, resource: Text, operations: set<Text>, now: real) returns (best: Option<Text>)
      requires s < |objects|
      ensures
        var fitting := Fitting(View(), i, s, kind, resource, operations, now);
        if fitting == {} then best.None? else best == Some(MinKey(fitting))
    {
      hide Valid, Matches, Less;
      var h := Host(objects, scopes, generations, grants, maxScopes, maxGrants);
      ghost var fitting := Fitting(h, i, s, kind, resource, operations, now);
      best := None;
      var todo := grants.Keys;
      while todo != {}
        invariant todo <= grants.Keys
        invariant best.None? ==> fitting <= todo
        invariant best.Some? ==> best.value in fitting && forall x :: x in fitting - todo && x != best.value ==> Less(best.value, x)
        decreases |todo|
      {
        var id :| id in todo;
        todo := todo - {id};
        if Fits(h, id, i, s, kind, resource, operations, now) {
          Closer(best, id, fitting, todo);
          if best.None? || Less(id, best.value) {
            best := Some(id);
          }
        }
      }
      if best.Some? {
        MinIsUnique(fitting, best.value);
      }
    }
  }

  /** Comparing with the best so far is enough. */
  lemma Closer(best: Option<Text>, id: Text, fitting: set<Text>, todo: set<Text>)
    requires id in fitting && id !in todo
    requires best.None? ==> fitting <= todo + {id}
    requires best.Some? ==> best.value in fitting && forall x :: x in fitting - (todo + {id}) && x != best.value ==> Less(best.value, x)
    ensures best.None? || Less(id, best.value) ==> forall x :: x in fitting - todo && x != id ==> Less(id, x)
    ensures best.Some? && !Less(id, best.value) ==> forall x :: x in fitting - todo && x != best.value ==> Less(best.value, x)
  {
    if best.Some? {
      LessTotal(id, best.value);
      forall x | x in fitting - todo && x != id && Less(id, best.value)
        ensures Less(id, x)
      {
        if x != best.value {
          LessTrans(id, best.value, x);
        }
      }
    }
  }
}
