/** Choosing a provider: which candidates there are, why each is out, and which one
    wins, whatever order the catalog is in. */
module Resolution {
  import opened Core
  import opened Texts
  import opened Values
  import opened Versions

  datatype Lifecycle =
    | DISCOVERED
    | VERIFIED
    | RESOLVED
    | ACTIVATING
    | ACTIVE
    | QUIESCING
    | DISPOSED
    | FAILED

  /** A registration as resolution sees it. `shown` says whether the catalog filter lets
      it through: right capability, visible scope, selected instance. */
  datatype Entry = Entry(
    shown: bool,
    instance: Text,
    provider: Text,
    version: Text,
    artifact: Text,
    contract: Text,
    trusted: bool,
    state: Lifecycle,
    operations: set<Text>,
    features: set<Text>)

  datatype Requirement = Requirement(
    major: nat,
    minMinor: nat,
    maxMinor: Option<nat>,
    operations: set<Text>,
    features: set<Text>)

  datatype Reason = UNTRUSTED | INACTIVE | INCOMPATIBLE | MISSING_OPERATION | MISSING_FEATURE | PIN_MISMATCH

  const AT: Unit := 0x40

  function Shown(c: seq<Entry>): seq<Entry> {
    if c == [] then [] else (if c[0].shown then [c[0]] else []) + Shown(c[1..])
  }

  function Identity(e: Entry): Text {
    e.provider + [AT] + e.version
  }

  /** The loop over visible candidates: one contract per version, one entry per provider
      and version. */
  function FirstConflict(c: seq<Entry>, contracts: map<Text, Text>, identities: set<Text>): Option<ErrorCode> {
    if c == [] then None
    else if c[0].version in contracts && contracts[c[0].version] != c[0].contract then Some(CONTRACT_MISMATCH)
    else if Identity(c[0]) in identities then Some(CONFLICT)
    else FirstConflict(c[1..], contracts[c[0].version := c[0].contract], identities + {Identity(c[0])})
  }

  function Range(v: Version, r: Requirement): bool {
    v.major == r.major && v.minor >= r.minMinor && (r.maxMinor.Some? ==> v.minor <= r.maxMinor.value)
  }

  predicate Pinned(pin: Option<Text>) {
    pin.Some? && pin.value != []
  }

  predicate Usable(s: Lifecycle, planned: bool) {
    s == ACTIVE || (planned && (s == VERIFIED || s == RESOLVED || s == ACTIVATING))
  }

  /** Later checks overwrite earlier reasons. */
  function Exclusion(e: Entry, v: Version, r: Requirement, pin: Option<Text>, planned: bool): Option<Reason> {
    if Pinned(pin) && e.provider != pin.value then Some(PIN_MISMATCH)
    else if !(r.features <= e.features) then Some(MISSING_FEATURE)
    else if !(r.operations <= e.operations) then Some(MISSING_OPERATION)
    else if !Range(v, r) then Some(INCOMPATIBLE)
    else if !Usable(e.state, planned) then Some(INACTIVE)
    else if !e.trusted then Some(UNTRUSTED)
    else None
  }

  predicate Readable(e: Entry) {
    ParseVersion(e.version).Some?
  }

  predicate AllReadable(c: seq<Entry>) {
    forall e | e in c :: Readable(e)
  }

  /** `compare` is negative. */
  predicate Before(a: Entry, b: Entry)
    requires Readable(a) && Readable(b)
  {
    var v, w := ParseVersion(a.version).value, ParseVersion(b.version).value;
    if v != w then Newer(v, w)
    else if a.provider != b.provider then Less(a.provider, b.provider)
    else a.artifact != b.artifact && Less(a.artifact, b.artifact)
  }

  /** A stable sort, as any one would do it. */
  function Insert(x: Entry, s: seq<Entry>): (r: seq<Entry>)
    requires Readable(x) && AllReadable(s)
    ensures multiset(r) == multiset(s) + multiset{x}
  {
    hide Before, Readable, AllReadable;
    if s == [] then [x]
    else
      HeadAndTail(s);
      if !Before(s[0], x) then [x] + s
      else
        assert s == [s[0]] + s[1..];
        [s[0]] + Insert(x, s[1..])
  }

  lemma HeadAndTail(s: seq<Entry>)
    requires AllReadable(s) && s != []
    ensures Readable(s[0]) && AllReadable(s[1..])
  {
    hide Readable;
    assert s[0] in s;
  }

  function Sort(c: seq<Entry>): (r: seq<Entry>)
    requires AllReadable(c)
    ensures multiset(r) == multiset(c)
    ensures AllReadable(r)
  {
    if c == [] then []
    else
      assert c == [c[0]] + c[1..];
      var rest := Sort(c[1..]);
      var r := Insert(c[0], rest);
      assert forall e :: e in r ==> e in multiset(r);
      r
  }

  function FirstEligible(c: seq<Entry>, r: Requirement, pin: Option<Text>, planned: bool): Option<Entry>
    requires AllReadable(c)
  {
    if c == [] then None
    else
      assert c[0] in c;
      if Exclusion(c[0], ParseVersion(c[0].version).value, r, pin, planned).None? then Some(c[0])
      else FirstEligible(c[1..], r, pin, planned)
  }

  datatype Explanation = Explanation(candidates: seq<Entry>, selected: Option<Entry>)

  /** `resolve`, once authorized. */
  function Resolve(catalog: seq<Entry>, r: Requirement, pin: Option<Text>, planned: bool): Result<Explanation> {
    var visible := Shown(catalog);
    var conflict := FirstConflict(visible, map[], {});
    if conflict.Some? then Err(conflict.value)
    else if !AllReadable(visible) then Err(INVALID_ARGUMENT)
    else
      var candidates := Sort(visible);
      var chosen := FirstEligible(candidates, r, pin, planned);
      if Pinned(pin) && chosen.None? then Err(NOT_FOUND)
      else Ok(Explanation(candidates, chosen))
  }

  /** The same, as the program goes about it: one pass over the catalog, then the sort. */
  method ResolveProvider(catalog: seq<Entry>, r: Requirement, pin: Option<Text>, planned: bool) returns (res: Result<Explanation>)
    ensures res == Resolve(catalog, r, pin, planned)
  {
    hide Identity, Sort, Exclusion;
    var visible := Shown(catalog);
    var contracts: map<Text, Text> := map[];
    var identities: set<Text> := {};
    var i := 0;
    while i < |visible|
      invariant i <= |visible|
      invariant FirstConflict(visible, map[], {}) == FirstConflict(visible[i..], contracts, identities)
    {
      var c := visible[i];
      assert visible[i..][0] == c && visible[i..][1..] == visible[i + 1..];
      if c.version in contracts && contracts[c.version] != c.contract {
        return Err(CONTRACT_MISMATCH);
      }
      contracts := contracts[c.version := c.contract];
      if Identity(c) in identities {
        return Err(CONFLICT);
      }
      identities := identities + {Identity(c)};
      i := i + 1;
    }
    if !AllReadable(visible) {
      return Err(INVALID_ARGUMENT);
    }
    var candidates := Sort(visible);
    ghost var chosen := FirstEligible(candidates, r, pin, planned);
    var k := 0;
    while k < |candidates|
      invariant k <= |candidates|
      invariant AllReadable(candidates[k..])
      invariant chosen == FirstEligible(candidates[k..], r, pin, planned)
    {
      assert candidates[k..][0] == candidates[k] && candidates[k..][1..] == candidates[k + 1..];
      assert candidates[k] in candidates[k..];
      if Exclusion(candidates[k], ParseVersion(candidates[k].version).value, r, pin, planned).None? {
        return Ok(Explanation(candidates, Some(candidates[k])));
      }
      k := k + 1;
    }
    res := if Pinned(pin) then Err(NOT_FOUND) else Ok(Explanation(candidates, None));
  }

  // ------------------------------------------------------- a strict total order

  lemma BeforeStrict(a: Entry, b: Entry, c: Entry)
    requires Readable(a) && Readable(b) && Readable(c)
    ensures !(Before(a, b) && Before(b, a))
    ensures Before(a, b) && Before(b, c) ==> Before(a, c)
  {
    hide ParseVersion, Less;
    LessTotal(a.provider, b.provider);
    LessTotal(a.artifact, b.artifact);
    LessTotal(a.provider, c.provider);
    LessTotal(a.artifact, c.artifact);
    if Less(a.provider, b.provider) && Less(b.provider, c.provider) {
      LessTrans(a.provider, b.provider, c.provider);
    }
    if Less(a.artifact, b.artifact) && Less(b.artifact, c.artifact) {
      LessTrans(a.artifact, b.artifact, c.artifact);
    }
  }

  /** Different entries that passed the conflict checks never compare equal: a version
      number has only one text. */
  lemma BeforeTotal(a: Entry, b: Entry)
    requires Readable(a) && Readable(b) && Identity(a) != Identity(b)
    ensures Before(a, b) || Before(b, a)
  {
    hide ParseVersion, Less, VersionText;
    OneTextPerVersion(a.version, ParseVersion(a.version).value);
    OneTextPerVersion(b.version, ParseVersion(b.version).value);
    LessTotal(a.provider, b.provider);
    LessTotal(a.artifact, b.artifact);
  }

  ghost predicate Apart(a: Entry, b: Entry) {
    Identity(a) != Identity(b) && (a.version == b.version ==> a.contract == b.contract)
  }

  /** No two visible entries quarrel. */
  ghost predicate NoConflict(c: seq<Entry>) {
    forall i: nat, j: nat :: i < j < |c| ==> Apart(c[i], c[j])
  }

  lemma NoConflictCons(c: seq<Entry>)
    requires c != []
    ensures NoConflict(c) <==> NoConflict(c[1..]) && forall e :: e in c[1..] ==> Apart(c[0], e)
  {
    hide Apart;
    var rest := c[1..];
    assert forall i: nat :: i < |rest| ==> rest[i] == c[i + 1];
    if NoConflict(rest) && forall e :: e in rest ==> Apart(c[0], e) {
      forall i: nat, j: nat | i < j < |c|
        ensures Apart(c[i], c[j])
      {
        assert c[j] == rest[j - 1] && rest[j - 1] in rest;
        if i > 0 { assert c[i] == rest[i - 1]; }
      }
    }
  }

  /** The one-pass check finds a quarrel exactly when there is one. */
  lemma {:induction false} ConflictCheck(c: seq<Entry>, contracts: map<Text, Text>, identities: set<Text>)
    ensures FirstConflict(c, contracts, identities).None?
      <==> && NoConflict(c)
           && (forall e :: e in c ==> Identity(e) !in identities)
           && (forall e :: e in c && e.version in contracts ==> contracts[e.version] == e.contract)
  {
    hide Identity, NoConflict;
    if c == [] {
      assert NoConflict(c) by { NothingQuarrels(); }
    } else {
      NoConflictCons(c);
      assert forall e :: e in c <==> e == c[0] || e in c[1..];
      ConflictCheck(c[1..], contracts[c[0].version := c[0].contract], identities + {Identity(c[0])});
    }
  }

  lemma NothingQuarrels()
    ensures NoConflict([])
  {
  }

  // --------------------------------------------------------- order independence

  /** The same entries, in any order. */
  ghost predicate Permutation(c: seq<Entry>, d: seq<Entry>) {
    multiset(c) == multiset(d)
  }

  lemma {:induction false} ShownPermutes(c: seq<Entry>)
    ensures forall e :: multiset(Shown(c))[e] == if e.shown then multiset(c)[e] else 0
  {
    if c != [] {
      ShownPermutes(c[1..]);
      assert c == [c[0]] + c[1..];
    }
  }

  /** Being free of quarrels does not depend on the order: it says that entries with the
      same identity occur once, and that versions agree on their contract. */
  lemma NoConflictPermutes(c: seq<Entry>, d: seq<Entry>)
    requires Permutation(c, d) && NoConflict(c)
    ensures NoConflict(d)
  {
    hide Identity;
    forall i: nat, j: nat | i < j < |d|
      ensures Apart(d[i], d[j])
    {
      assert d[i] in multiset(c) && d[j] in multiset(c) by { assert d[i] in multiset(d) && d[j] in multiset(d); }
      var k: nat :| k < |c| && c[k] == d[i];
      var l: nat :| l < |c| && c[l] == d[j];
      if k == l {
        Twice(d, i, j);
        Once(c, k);
      }
    }
  }

  lemma Twice(d: seq<Entry>, i: nat, j: nat)
    requires i < j < |d| && d[i] == d[j]
    ensures multiset(d)[d[i]] >= 2
  {
    assert d == d[..j] + d[j..];
    assert d[i] in d[..j];
    assert d[j..][0] == d[j];
    assert d[j] in d[j..];
  }

  lemma Once(c: seq<Entry>, k: nat)
    requires NoConflict(c) && k < |c|
    ensures multiset(c)[c[k]] == 1
  {
    hide Identity;
    assert c == c[..k] + [c[k]] + c[k + 1..];
    assert c[k] !in c[..k];
    assert c[k] !in c[k + 1..];
  }

  ghost predicate Ordered(s: seq<Entry>)
    requires AllReadable(s)
  {
    forall i: nat, j: nat :: i < j < |s| ==> Before(s[i], s[j])
  }

  lemma OrderedCons(x: Entry, s: seq<Entry>)
    requires Readable(x) && AllReadable(s)
    ensures AllReadable([x] + s)
    ensures Ordered([x] + s) <==> Ordered(s) && forall e :: e in s ==> Before(x, e)
  {
    hide Before, Readable;
    var t := [x] + s;
    assert forall i: nat :: i < |s| ==> t[i + 1] == s[i];
    if Ordered(t) {
      forall e | e in s
        ensures Before(x, e)
      {
        var i: nat :| i < |s| && s[i] == e;
        assert t[0] == x && t[i + 1] == e;
      }
    }
  }

  lemma {:induction false} InsertOrders(x: Entry, s: seq<Entry>)
    requires Readable(x) && AllReadable(s) && Ordered(s)
    requires forall e :: e in s ==> Identity(e) != Identity(x)
    ensures AllReadable(Insert(x, s)) && Ordered(Insert(x, s))
  {
    hide Before, Identity, Readable, Ordered;
    if s == [] {
      OrderedCons(x, []);
      assert Ordered([]) by { assert s == []; }
      assert Insert(x, s) == [x] + [];
    } else {
      assert s == [s[0]] + s[1..] && s[0] in s;
      OrderedCons(s[0], s[1..]);
      BeforeTotal(s[0], x);
      if Before(s[0], x) {
        InsertOrders(x, s[1..]);
        var rest := Insert(x, s[1..]);
        assert forall e :: e in rest ==> e in multiset(rest);
        OrderedCons(s[0], rest);
      } else {
        forall e | e in s
          ensures Before(x, e)
        {
          BeforeStrict(x, s[0], e);
        }
        OrderedCons(x, s);
      }
    }
  }

  lemma {:induction false} SortOrders(c: seq<Entry>)
    requires AllReadable(c) && NoConflict(c)
    ensures Ordered(Sort(c))
  {
    hide Before, Readable, Identity, Insert;
    if c != [] {
      NoConflictCons(c);
      SortOrders(c[1..]);
      var rest := Sort(c[1..]);
      forall e | e in rest
        ensures Identity(e) != Identity(c[0])
      {
        assert e in multiset(rest);
      }
      InsertOrders(c[0], rest);
    }
  }

  lemma SameFirst(s: seq<Entry>, t: seq<Entry>)
    requires AllReadable(s) && AllReadable(t) && Ordered(s) && Ordered(t) && Permutation(s, t) && s != [] && t != []
    ensures s[0] == t[0]
  {
    hide Before, Readable;
    assert s[0] in multiset(t) && t[0] in multiset(s);
    var i: nat :| i < |s| && s[i] == t[0];
    var j: nat :| j < |t| && t[j] == s[0];
    BeforeStrict(s[0], t[0], s[0]);
  }

  /** An ordered sequence is determined by what is in it. */
  lemma {:induction false} OrderedUnique(s: seq<Entry>, t: seq<Entry>)
    requires AllReadable(s) && AllReadable(t) && Ordered(s) && Ordered(t) && Permutation(s, t)
    ensures s == t
  {
    hide Before, Readable, Ordered;
    assert |t| == |multiset(t)| == |multiset(s)| == |s|;
    if s != [] {
      SameFirst(s, t);
      assert s == [s[0]] + s[1..] && t == [t[0]] + t[1..];
      assert multiset(s[1..]) == multiset(s) - multiset{s[0]};
      assert multiset(t[1..]) == multiset(t) - multiset{t[0]};
      OrderedCons(s[0], s[1..]);
      OrderedCons(t[0], t[1..]);
      OrderedUnique(s[1..], t[1..]);
    }
  }

  lemma SameResolution(c: seq<Entry>, d: seq<Entry>, r: Requirement, pin: Option<Text>, planned: bool)
    requires Permutation(c, d) && Resolve(c, r, pin, planned).Ok?
    ensures Resolve(d, r, pin, planned) == Resolve(c, r, pin, planned)
  {
    hide FirstConflict, Sort, FirstEligible, Readable, NoConflict, Ordered;
    var v, w := Shown(c), Shown(d);
    ShownPermutes(c);
    ShownPermutes(d);
    assert Permutation(v, w);
    ConflictCheck(v, map[], {});
    ConflictCheck(w, map[], {});
    NoConflictPermutes(v, w);
    assert forall e :: e in w ==> e in multiset(w);
    SortOrders(v);
    SortOrders(w);
    OrderedUnique(Sort(v), Sort(w));
  }

  /** When the catalog passes its checks, any rearrangement of it passes too and gives
      the same candidates in the same order and the same selection. */
  lemma OrderIndependent(c: seq<Entry>, d: seq<Entry>, r: Requirement, pin: Option<Text>, planned: bool)
    requires Permutation(c, d)
    ensures Resolve(c, r, pin, planned).Ok? <==> Resolve(d, r, pin, planned).Ok?
    ensures Resolve(c, r, pin, planned).Ok? ==> Resolve(c, r, pin, planned) == Resolve(d, r, pin, planned)
  {
    hide Resolve;
    if Resolve(c, r, pin, planned).Ok? {
      SameResolution(c, d, r, pin, planned);
    } else if Resolve(d, r, pin, planned).Ok? {
      SameResolution(d, c, r, pin, planned);
    }
  }

  /** The selection is the best there is: eligible itself, and ahead of every other
      eligible visible entry. None is selected only if none is eligible. */
  lemma SelectsTheBest(c: seq<Entry>, r: Requirement, pin: Option<Text>, planned: bool, e: Entry)
    requires Resolve(c, r, pin, planned).Ok?
    requires e in c && e.shown && Readable(e) && Exclusion(e, ParseVersion(e.version).value, r, pin, planned).None?
    ensures
      var s := Resolve(c, r, pin, planned).value.selected;
      s.Some? && s.value in c && s.value.shown && Readable(s.value)
      && Exclusion(s.value, ParseVersion(s.value.version).value, r, pin, planned).None?
      && (s.value == e || Before(s.value, e))
      && (Pinned(pin) ==> s.value.provider == pin.value)
  {
    hide FirstConflict, Sort, Readable, NoConflict, Before, Identity;
    var v := Shown(c);
    ConflictCheck(v, map[], {});
    ShownPermutes(c);
    SortOrders(v);
    assert e in multiset(c);
    assert e in multiset(v);
    assert e in multiset(Sort(v));
    FirstIsFirst(Sort(v), r, pin, planned, e);
    var s := FirstEligible(Sort(v), r, pin, planned).value;
    assert s in multiset(Sort(v));
    assert s in multiset(v);
    assert s in multiset(c);
  }

  lemma {:induction false} FirstIsFirst(s: seq<Entry>, r: Requirement, pin: Option<Text>, planned: bool, e: Entry)
    requires AllReadable(s) && Ordered(s) && e in s
    requires Readable(e) && Exclusion(e, ParseVersion(e.version).value, r, pin, planned).None?
    ensures
      var f := FirstEligible(s, r, pin, planned);
      f.Some? && f.value in s && (f.value == e || Before(f.value, e))
      && Readable(f.value) && Exclusion(f.value, ParseVersion(f.value.version).value, r, pin, planned).None?
  {
    hide Before, ParseVersion;
    assert s[0] in s;
    if Exclusion(s[0], ParseVersion(s[0].version).value, r, pin, planned).Some? {
      assert forall i: nat :: i < |s| - 1 ==> s[1..][i] == s[i + 1];
      FirstIsFirst(s[1..], r, pin, planned, e);
    }
  }

  // ------------------------------------------------- what is selected, said plainly

  /** A provider that is shown, trusted, in a state that counts, within the range of
      versions, has every operation and feature asked for, and is the pinned one if one
      is pinned. */
  predicate Meets(e: Entry, r: Requirement, pin: Option<Text>, planned: bool)
    requires Readable(e)
  {
    var v := ParseVersion(e.version).value;
    && e.shown && e.trusted
    && (match e.state
        case ACTIVE => true
        case VERIFIED => planned
        case RESOLVED => planned
        case ACTIVATING => planned
        case _ => false)
    && v.major == r.major && r.minMinor <= v.minor
    && (r.maxMinor == None || v.minor <= r.maxMinor.value)
    && (forall o | o in r.operations :: o in e.operations)
    && (forall f | f in r.features :: f in e.features)
    && (pin == None || pin.value == [] || e.provider == pin.value)
  }

  lemma MeetsExactly(e: Entry, r: Requirement, pin: Option<Text>, planned: bool)
    requires Readable(e)
    ensures Meets(e, r, pin, planned) <==> e.shown && Exclusion(e, ParseVersion(e.version).value, r, pin, planned).None?
  {
    hide ParseVersion;
  }

  /** The order of preference: the numerically greater version, then the provider's id,
      then the artifact's digest. */
  ghost predicate Preferred(a: Entry, b: Entry)
    requires Readable(a) && Readable(b)
  {
    var v, w := ParseVersion(a.version).value, ParseVersion(b.version).value;
    || v.major > w.major || (v.major == w.major && v.minor > w.minor) || (v.major == w.major && v.minor == w.minor && v.patch > w.patch)
    || (v == w && (Precedes(a.provider, b.provider) || (a.provider == b.provider && Precedes(a.artifact, b.artifact))))
  }

  lemma PreferredIsBefore(a: Entry, b: Entry)
    requires Readable(a) && Readable(b)
    ensures Before(a, b) <==> Preferred(a, b)
  {
    hide ParseVersion, Less, Precedes;
    LessIsFirstDifference(a.provider, b.provider);
    LessIsFirstDifference(a.artifact, b.artifact);
    LessTotal(a.provider, b.provider);
    LessTotal(a.artifact, b.artifact);
  }

  /** What `resolve` selects: something exactly when some entry of the catalog meets the
      requirement, and then one that does and is preferred to every other that does. */
  lemma SelectsExactly(c: seq<Entry>, r: Requirement, pin: Option<Text>, planned: bool)
    requires Resolve(c, r, pin, planned).Ok?
    ensures
      var s := Resolve(c, r, pin, planned).value.selected;
      && (s.Some? <==> exists e :: e in c && Readable(e) && Meets(e, r, pin, planned))
      && (s.Some? ==>
            && s.value in c && Readable(s.value) && Meets(s.value, r, pin, planned)
            && forall e :: e in c && e != s.value && Readable(e) && Meets(e, r, pin, planned) ==> Preferred(s.value, e))
  {
    hide Resolve, Readable, Meets, Exclusion, Before, Preferred;
    forall e | e in c && Readable(e) && Meets(e, r, pin, planned)
      ensures
        var s := Resolve(c, r, pin, planned).value.selected;
        s.Some? && (e == s.value || (Readable(s.value) && Preferred(s.value, e)))
    {
      MeetsExactly(e, r, pin, planned);
      SelectsTheBest(c, r, pin, planned, e);
      PreferredIsBefore(Resolve(c, r, pin, planned).value.selected.value, e);
    }
    if Resolve(c, r, pin, planned).value.selected.Some? {
      SelectionIsEligible(c, r, pin, planned);
      MeetsExactly(Resolve(c, r, pin, planned).value.selected.value, r, pin, planned);
    }
  }

  lemma SelectionIsEligible(c: seq<Entry>, r: Requirement, pin: Option<Text>, planned: bool)
    requires Resolve(c, r, pin, planned).Ok? && Resolve(c, r, pin, planned).value.selected.Some?
    ensures
      var s := Resolve(c, r, pin, planned).value.selected.value;
      s in c && s.shown && Readable(s) && Exclusion(s, ParseVersion(s.version).value, r, pin, planned).None?
  {
    hide FirstConflict, Sort, Readable, Exclusion, ParseVersion;
    var v := Shown(c);
    ShownPermutes(c);
    var s := Resolve(c, r, pin, planned).value.selected.value;
    FirstIsThere(Sort(v), r, pin, planned);
    assert s in multiset(Sort(v));
    assert s in multiset(v);
    assert s in multiset(c);
  }

  lemma {:induction false} FirstIsThere(s: seq<Entry>, r: Requirement, pin: Option<Text>, planned: bool)
    requires AllReadable(s) && FirstEligible(s, r, pin, planned).Some?
    ensures
      var f := FirstEligible(s, r, pin, planned).value;
      f in s && Readable(f) && Exclusion(f, ParseVersion(f.version).value, r, pin, planned).None?
  {
    hide ParseVersion, Exclusion;
    assert s[0] in s;
    if Exclusion(s[0], ParseVersion(s[0].version).value, r, pin, planned).Some? {
      FirstIsThere(s[1..], r, pin, planned);
    }
  }

  /** Two entries quarrel when a provider offers one version twice, or when one version
      stands for two contracts. */
  predicate Quarrel(a: Entry, b: Entry) {
    a.version == b.version && (a.provider == b.provider || a.contract != b.contract)
  }

  lemma {:induction false} DigitsNotAt(n: nat)
    ensures AT !in Digits(n)
  {
    if n >= 10 {
      DigitsNotAt(n / 10);
    }
  }

  /** A version has no @ in it, so provider and version can be told from their join. */
  lemma IdentitySays(a: Entry, b: Entry)
    requires Readable(a) && Readable(b)
    ensures Identity(a) == Identity(b) <==> a.provider == b.provider && a.version == b.version
  {
    hide ParseVersion;
    OneTextPerVersion(a.version, ParseVersion(a.version).value);
    OneTextPerVersion(b.version, ParseVersion(b.version).value);
    NoAt(ParseVersion(a.version).value);
    NoAt(ParseVersion(b.version).value);
    if Identity(a) == Identity(b) {
      LastAt(a.provider, b.provider, a.version, b.version);
    }
  }

  lemma QuarrelsAre(v: seq<Entry>)
    requires AllReadable(v)
    ensures NoConflict(v) <==> forall i: nat, j: nat :: i < j < |v| ==> !Quarrel(v[i], v[j])
  {
    hide Identity, Readable;
    forall i: nat, j: nat | i < j < |v|
      ensures Apart(v[i], v[j]) <==> !Quarrel(v[i], v[j])
    {
      IdentitySays(v[i], v[j]);
    }
  }

  lemma NoAt(v: Version)
    ensures AT !in VersionText(v)
  {
    DigitsNotAt(v.major);
    DigitsNotAt(v.minor);
    DigitsNotAt(v.patch);
  }

  lemma AtIsLast(a: Text, x: Text)
    requires AT !in x
    ensures forall k :: |a| < k < |a + [AT] + x| ==> (a + [AT] + x)[k] != AT
  {
    forall k | |a| < k < |a + [AT] + x|
      ensures (a + [AT] + x)[k] != AT
    {
      assert (a + [AT] + x)[k] == x[k - |a| - 1];
    }
  }

  lemma LastAt(a: Text, b: Text, x: Text, y: Text)
    requires AT !in x && AT !in y && a + [AT] + x == b + [AT] + y
    ensures a == b && x == y
  {
    var t := a + [AT] + x;
    assert t[|a|] == AT && t[|b|] == AT;
    AtIsLast(a, x);
    AtIsLast(b, y);
    assert |a| == |b|;
    assert t[..|a|] == a && t[..|b|] == b;
    assert t[|a| + 1..] == x && t[|b| + 1..] == y;
  }

  /** `resolve` fails exactly when two visible entries quarrel, when a visible version
      cannot be read, or when a provider is pinned and nothing meets the requirement;
      the candidates are all that is visible, best first. */
  lemma ResolvesExactly(c: seq<Entry>, r: Requirement, pin: Option<Text>, planned: bool)
    ensures Resolve(c, r, pin, planned).Ok? <==>
      && AllReadable(Shown(c)) && (forall i: nat, j: nat :: i < j < |Shown(c)| ==> !Quarrel(Shown(c)[i], Shown(c)[j]))
      && (pin == None || pin.value == [] || exists e :: e in c && Readable(e) && Meets(e, r, pin, planned))
    ensures Resolve(c, r, pin, planned).Ok? ==>
      var k := Resolve(c, r, pin, planned).value.candidates;
      && multiset(k) == multiset(Shown(c)) && AllReadable(k)
      && forall i: nat, j: nat :: i < j < |k| ==> Preferred(k[i], k[j])
  {
    hide Readable, Meets, Exclusion, Before, Preferred, FirstConflict, NoConflict, FirstEligible, Identity, Sort;
    var v := Shown(c);
    ConflictCheck(v, map[], {});
    if AllReadable(v) {
      QuarrelsAre(v);
    }
    if NoConflict(v) && AllReadable(v) {
      SortOrders(v);
      var k := Sort(v);
      forall i: nat, j: nat | i < j < |k|
        ensures Preferred(k[i], k[j])
      {
        PreferredIsBefore(k[i], k[j]);
      }
      if Resolve(c, r, pin, planned).Ok? {
        SelectsExactly(c, r, pin, planned);
        if FirstEligible(k, r, pin, planned).Some? {
          assert exists e :: e in c && Readable(e) && Meets(e, r, pin, planned);
        }
      } else {
        forall e | e in c && Readable(e) && Meets(e, r, pin, planned)
          ensures false
        {
          MeetsExactly(e, r, pin, planned);
          ShownPermutes(c);
          assert e in multiset(c) && e in multiset(v) && e in multiset(k);
          FirstIsFirst(k, r, pin, planned, e);
        }
      }
    }
  }
}
