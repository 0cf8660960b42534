/** JavaScript strings: sequences of UTF-16 code units, well-formed or not, and the
    number of bytes Buffer.byteLength gives them. */
module Texts {

  type Unit = u: int | 0 <= u < 0x10000
  type Text = seq<Unit>

  predicate IsHigh(u: Unit) {
    0xD800 <= u < 0xDC00
  }

  predicate IsLow(u: Unit) {
    0xDC00 <= u < 0xE000
  }

  /** String.prototype.isWellFormed: every surrogate is one half of a pair. */
  predicate WellFormed(t: Text) {
    if t == [] then true
    else if IsHigh(t[0]) then |t| > 1 && IsLow(t[1]) && WellFormed(t[2..])
    else !IsLow(t[0]) && WellFormed(t[1..])
  }

  /** Bytes of a unit that stands for a whole code point (section 3 of RFC 3629). An
      unpaired surrogate is encoded as U+FFFD, three bytes. */
  function Width(u: Unit): nat {
    if u < 0x80 then 1 else if u < 0x800 then 2 else 3
  }

  function ByteLen(t: Text): nat {
    if t == [] then 0
    else if IsHigh(t[0]) && |t| > 1 && IsLow(t[1]) then 4 + ByteLen(t[2..])
    else Width(t[0]) + ByteLen(t[1..])
  }

  /** Half of a pair weighs two bytes: unlike ByteLen, a weight can be cut anywhere. */
  function UnitWeight(u: Unit): nat {
    if IsHigh(u) || IsLow(u) then 2 else Width(u)
  }

  function Weight(t: Text): nat {
    if t == [] then 0 else UnitWeight(t[0]) + Weight(t[1..])
  }

  lemma {:induction false} WeightConcat(a: Text, b: Text)
    ensures Weight(a + b) == Weight(a) + Weight(b)
  {
    if a == [] {
      assert a + b == b;
    } else {
      WeightConcat(a[1..], b);
      assert (a + b)[1..] == a[1..] + b;
    }
  }

  lemma {:induction false} WeightBounds(t: Text)
    ensures |t| <= Weight(t) <= ByteLen(t)
    decreases |t|
  {
    if t != [] {
      WeightBounds(t[1..]);
      if IsHigh(t[0]) && |t| > 1 && IsLow(t[1]) {
        WeightBounds(t[2..]);
        assert t[1..][1..] == t[2..];
      }
    }
  }

  lemma {:induction false} WellFormedWeight(t: Text)
    requires WellFormed(t)
    ensures ByteLen(t) == Weight(t)
    decreases |t|
  {
    if t != [] {
      if IsHigh(t[0]) {
        WellFormedWeight(t[2..]);
        assert t[1..][1..] == t[2..];
      } else {
        WellFormedWeight(t[1..]);
      }
    }
  }

  lemma {:induction false} WellFormedConcat(a: Text, b: Text)
    requires WellFormed(a) && WellFormed(b)
    ensures WellFormed(a + b)
    decreases |a|
  {
    if a == [] {
      assert a + b == b;
    } else if IsHigh(a[0]) {
      WellFormedConcat(a[2..], b);
      assert (a + b)[2..] == a[2..] + b;
    } else {
      WellFormedConcat(a[1..], b);
      assert (a + b)[1..] == a[1..] + b;
    }
  }

  predicate IsAscii(t: Text) {
    forall i | 0 <= i < |t| :: t[i] < 0x80
  }

  lemma {:induction false} AsciiWellFormed(t: Text)
    requires IsAscii(t)
    ensures WellFormed(t) && ByteLen(t) == Weight(t) == |t|
  {
    if t != [] {
      AsciiWellFormed(t[1..]);
    }
  }

  /** The order of Array.prototype.sort on strings: code unit by code unit. */
  predicate Less(a: Text, b: Text) {
    b != [] && (a == [] || a[0] < b[0] || (a[0] == b[0] && Less(a[1..], b[1..])))
  }

  lemma {:induction false} LessTotal(a: Text, b: Text)
    ensures a == b || Less(a, b) || Less(b, a)
    ensures !(Less(a, b) && Less(b, a)) && !Less(a, a)
  {
    if a != [] && b != [] && a[0] == b[0] {
      LessTotal(a[1..], b[1..]);
      LessTotal(a[1..], a[1..]);
      assert a == [a[0]] + a[1..] && b == [b[0]] + b[1..];
    } else if a != [] {
      LessTotal(a[1..], a[1..]);
    }
  }

  lemma {:induction false} LessTrans(a: Text, b: Text, c: Text)
    requires Less(a, b) && Less(b, c)
    ensures Less(a, c)
  {
    if a != [] && a[0] == b[0] && b[0] == c[0] {
      LessTrans(a[1..], b[1..], c[1..]);
    }
  }

  /** The first place where the texts differ has the smaller unit in a, or a ends there. */
  ghost predicate Precedes(a: Text, b: Text) {
    exists n: nat :: Splits(a, b, n)
  }

  ghost predicate Splits(a: Text, b: Text, n: nat) {
    && n <= |a| && n < |b| && a[..n] == b[..n]
    && (n == |a| || a[n] < b[n])
  }

  lemma {:induction false} LessIsFirstDifference(a: Text, b: Text)
    ensures Less(a, b) <==> Precedes(a, b)
  {
    if b != [] && a != [] && a[0] == b[0] {
      LessIsFirstDifference(a[1..], b[1..]);
      if Precedes(a[1..], b[1..]) {
        var n: nat :| Splits(a[1..], b[1..], n);
        assert a[..n + 1] == [a[0]] + a[1..][..n] && b[..n + 1] == [b[0]] + b[1..][..n];
        assert Splits(a, b, n + 1);
      }
      if Precedes(a, b) {
        var n: nat :| Splits(a, b, n);
        assert n > 0;
        assert a[1..][..n - 1] == a[..n][1..] && b[1..][..n - 1] == b[..n][1..];
        assert Splits(a[1..], b[1..], n - 1);
      }
    } else if Less(a, b) {
      assert Splits(a, b, 0);
    } else if n: nat :| Splits(a, b, n) {
      assert n == 0 || a[..n][0] == b[..n][0];
    }
  }

  /** After a common beginning the smaller unit decides, and a text comes before what
      it begins. */
  lemma {:induction false} CommonBeginning(p: Text, a: Text, b: Text)
    ensures a != [] && b != [] && a[0] < b[0] ==> Less(p + a, p + b)
    ensures b != [] ==> Less(p, p + b)
  {
    if a != [] && b != [] && a[0] < b[0] {
      assert (p + a)[..|p|] == p == (p + b)[..|p|];
      assert Splits(p + a, p + b, |p|);
    }
    if b != [] {
      assert p[..|p|] == p == (p + b)[..|p|];
      assert Splits(p, p + b, |p|);
    }
    LessIsFirstDifference(p + a, p + b);
    LessIsFirstDifference(p, p + b);
  }

  // ------------------------------------------------------------ a set of keys, sorted

  ghost function MinKey(keys: set<Text>): (m: Text)
    requires keys != {}
    ensures m in keys
    ensures forall k :: k in keys && k != m ==> Less(m, k)
  {
    var x :| x in keys;
    if keys == {x} then x
    else
      var rest := MinKey(keys - {x});
      LessTotal(x, rest);
      if Less(x, rest) then
        assert forall k :: k in keys - {x} && k != rest ==> Less(x, k) by {
          forall k | k in keys - {x} && k != rest
            ensures Less(x, k)
          {
            LessTrans(x, rest, k);
          }
        }
        x
      else rest
  }

  /** Object.keys(...).sort(). */
  ghost function Sorted(keys: set<Text>): (r: seq<Text>)
    ensures |r| == |keys|
    ensures forall k :: k in r <==> k in keys
    decreases |keys|
  {
    if keys == {} then []
    else
      var m := MinKey(keys);
      [m] + Sorted(keys - {m})
  }

  ghost predicate Increasing(r: seq<Text>) {
    forall i: nat, j: nat :: i < j < |r| ==> Less(r[i], r[j])
  }

  lemma {:induction false} SortedIncreases(keys: set<Text>)
    ensures Increasing(Sorted(keys))
    decreases |keys|
  {
    if keys != {} {
      var m := MinKey(keys);
      SortedIncreases(keys - {m});
      var rest := Sorted(keys - {m});
      forall j: nat | j < |rest|
        ensures Less(m, rest[j])
      {
        assert rest[j] in rest;
      }
    }
  }

  /** Of two keys the one with the smaller unit at their first difference stands first. */
  lemma SortedByUnits(keys: set<Text>)
    ensures forall i: nat, j: nat :: i < j < |Sorted(keys)| ==> Precedes(Sorted(keys)[i], Sorted(keys)[j])
  {
    hide Less, Sorted, Precedes;
    SortedIncreases(keys);
    var r := Sorted(keys);
    forall i: nat, j: nat | i < j < |r|
      ensures Precedes(r[i], r[j])
    {
      LessIsFirstDifference(r[i], r[j]);
    }
  }

  lemma MinIsUnique(keys: set<Text>, m: Text)
    requires m in keys && forall k :: k in keys && k != m ==> Less(m, k)
    ensures MinKey(keys) == m
  {
    LessTotal(MinKey(keys), m);
  }

  lemma HeadIsMin(r: seq<Text>, keys: set<Text>)
    requires r != [] && Increasing(r) && forall k :: k in r <==> k in keys
    ensures r[0] in keys && MinKey(keys) == r[0]
  {
    hide Less, MinKey;
    forall k | k in keys && k != r[0]
      ensures Less(r[0], k)
    {
      var j: nat :| j < |r| && r[j] == k;
    }
    MinIsUnique(keys, r[0]);
  }

  lemma TailIsRest(r: seq<Text>, keys: set<Text>)
    requires r != [] && Increasing(r) && forall k :: k in r <==> k in keys
    ensures Increasing(r[1..])
    ensures forall k :: k in r[1..] <==> k in keys - {r[0]}
  {
    hide Less;
    LessTotal(r[0], r[0]);
    assert r == [r[0]] + r[1..];
    forall k | k in r[1..]
      ensures k != r[0]
    {
      var j: nat :| j < |r[1..]| && r[1..][j] == k;
      assert r[j + 1] == k;
    }
  }

  /** Only one sequence is increasing and has these members. */
  lemma {:induction false} IncreasingIsSorted(r: seq<Text>, keys: set<Text>)
    requires Increasing(r) && forall k :: k in r <==> k in keys
    ensures r == Sorted(keys)
    decreases |r|
  {
    hide Less, MinKey, Increasing;
    if r == [] {
      assert keys == {};
    } else {
      HeadIsMin(r, keys);
      TailIsRest(r, keys);
      IncreasingIsSorted(r[1..], keys - {r[0]});
      assert r == [r[0]] + r[1..];
    }
  }

  lemma ConsInsert(m: Text, rest: seq<Text>, k: Text, i: nat)
    requires i <= |rest|
    ensures [m] + (rest[..i] + [k] + rest[i..]) == ([m] + rest)[..i + 1] + [k] + ([m] + rest)[i + 1..]
  {
  }

  lemma SortedCons(keys: set<Text>, m: Text)
    requires m in keys && forall k :: k in keys && k != m ==> Less(m, k)
    ensures Sorted(keys) == [m] + Sorted(keys - {m})
  {
    MinIsUnique(keys, m);
  }

  /** A new key lands somewhere in the middle and moves nothing else. */
  lemma {:induction false} SortedInsert(keys: set<Text>, k: Text) returns (i: nat)
    requires k !in keys
    ensures i <= |Sorted(keys)|
    ensures Sorted(keys + {k}) == Sorted(keys)[..i] + [k] + Sorted(keys)[i..]
    decreases |keys|
  {
    hide Sorted, Less, MinKey;
    var all := keys + {k};
    var m := MinKey(all);
    SortedCons(all, m);
    if m == k {
      assert all - {k} == keys;
      i := 0;
    } else {
      SortedCons(keys, m);
      var j := SortedInsert(keys - {m}, k);
      assert all - {m} == (keys - {m}) + {k};
      ConsInsert(m, Sorted(keys - {m}), k, j);
      i := j + 1;
    }
  }
}
