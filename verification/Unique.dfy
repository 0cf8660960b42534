/** `unique`: no two items with the same canonical text. */
module Unique {
  import opened Core
  import opened Texts
  import opened Values
  import opened Printer
  import opened RoundTrip
  import Codec

  const MAX_BYTES: nat := 1048576

  /** The texts of the first n items, or the error of the first that has none. */
  ghost function TextsOf(xs: seq<Value>, n: nat): Result<set<Text>>
    requires n <= |xs|
  {
    if n == 0 then Ok({})
    else
      var before :- TextsOf(xs, n - 1);
      var t :- Canonical(xs[n - 1], MAX_BYTES);
      Ok(before + {t})
  }

  /** The code `unique` throws, if any. */
  ghost function Failure(xs: seq<Value>): Option<ErrorCode> {
    match TextsOf(xs, |xs|)
    case Err(code) => Some(code)
    case Ok(texts) => if |texts| == |xs| then None else Some(CONFLICT)
  }

  ghost predicate Distinct(xs: seq<Value>, n: nat)
    requires n <= |xs|
  {
    forall i: nat, j: nat :: i < j < n ==> xs[i] != xs[j]
  }

  lemma {:induction false} TextsExist(xs: seq<Value>, n: nat)
    requires n <= |xs|
    ensures TextsOf(xs, n).Ok? <==> forall i :: 0 <= i < n ==> Canonical(xs[i], MAX_BYTES).Ok?
  {
    hide Canonical;
    if n > 0 {
      TextsExist(xs, n - 1);
    }
  }

  lemma {:induction false} Members(xs: seq<Value>, n: nat, t: Text)
    requires n <= |xs| && TextsOf(xs, n).Ok?
    ensures t in TextsOf(xs, n).value <==> exists i :: 0 <= i < n && Canonical(xs[i], MAX_BYTES) == Ok(t)
  {
    hide Canonical;
    if n > 0 {
      Members(xs, n - 1, t);
    }
  }

  /** As many texts as items exactly if no two items are equal. */
  lemma {:induction false} Counted(xs: seq<Value>, n: nat)
    requires n <= |xs| && TextsOf(xs, n).Ok?
    ensures |TextsOf(xs, n).value| <= n
    ensures |TextsOf(xs, n).value| == n <==> Distinct(xs, n)
  {
    hide Canonical;
    if n > 0 {
      Counted(xs, n - 1);
      var before, t := TextsOf(xs, n - 1).value, Canonical(xs[n - 1], MAX_BYTES).value;
      Members(xs, n - 1, t);
      assert t in before ==> before + {t} == before;
      assert |before + {t}| == |before| + if t in before then 0 else 1;
      NewText(xs, n, t);
    }
  }

  /** The last text is new exactly if the last item is. */
  lemma NewText(xs: seq<Value>, n: nat, t: Text)
    requires 0 < n <= |xs| && Canonical(xs[n - 1], MAX_BYTES) == Ok(t)
    ensures Distinct(xs, n) <==>
      Distinct(xs, n - 1) && !exists i :: 0 <= i < n - 1 && Canonical(xs[i], MAX_BYTES) == Ok(t)
  {
    hide Canonical;
    forall i | 0 <= i < n - 1 && Canonical(xs[i], MAX_BYTES) == Ok(t)
      ensures xs[i] == xs[n - 1]
    {
      CanonicalInjective(xs[i], xs[n - 1], MAX_BYTES, MAX_BYTES);
    }
  }

  /** It passes exactly when every item has a canonical text and no two are equal. */
  lemma UniqueExactly(xs: seq<Value>)
    ensures Failure(xs).None?
      <==> (forall i :: 0 <= i < |xs| ==> Canonical(xs[i], MAX_BYTES).Ok?) && Distinct(xs, |xs|)
    ensures (forall i :: 0 <= i < |xs| ==> Canonical(xs[i], MAX_BYTES).Ok?) && !Distinct(xs, |xs|) ==> Failure(xs) == Some(CONFLICT)
    ensures forall i: nat :: i < |xs| && Canonical(xs[i], MAX_BYTES).Err? && (forall j :: 0 <= j < i ==> Canonical(xs[j], MAX_BYTES).Ok?) ==>
      Failure(xs) == Some(Canonical(xs[i], MAX_BYTES).code)
  {
    hide Canonical, TextsOf, Distinct;
    TextsExist(xs, |xs|);
    forall i: nat | i < |xs| && Canonical(xs[i], MAX_BYTES).Err? && (forall j :: 0 <= j < i ==> Canonical(xs[j], MAX_BYTES).Ok?)
      ensures Failure(xs) == Some(Canonical(xs[i], MAX_BYTES).code)
    {
      FirstWithout(xs, i);
      Stuck(xs, i + 1, |xs|);
    }
    if TextsOf(xs, |xs|).Ok? {
      Counted(xs, |xs|);
    }
  }

  lemma FirstWithout(xs: seq<Value>, i: nat)
    requires i < |xs| && Canonical(xs[i], MAX_BYTES).Err? && forall j :: 0 <= j < i ==> Canonical(xs[j], MAX_BYTES).Ok?
    ensures TextsOf(xs, i + 1) == Err(Canonical(xs[i], MAX_BYTES).code)
  {
    hide Canonical;
    TextsExist(xs, i);
  }

  method Check(xs: seq<Value>) returns (failure: Option<ErrorCode>)
    ensures failure == Failure(xs)
  {
    hide Canonical;
    var texts: set<Text> := {};
    var i := 0;
    while i < |xs|
      invariant i <= |xs| && TextsOf(xs, i) == Ok(texts)
    {
      var t := Codec.Print(xs[i], MAX_BYTES);
      if t.Err? {
        Stuck(xs, i + 1, |xs|);
        return Some(t.code);
      }
      texts := texts + {t.value};
      i := i + 1;
    }
    failure := if |texts| == |xs| then None else Some(CONFLICT);
  }

  /** An error is not overtaken by what comes after. */
  lemma {:induction false} Stuck(xs: seq<Value>, n: nat, m: nat)
    requires n <= m <= |xs| && TextsOf(xs, n).Err?
    ensures TextsOf(xs, m) == TextsOf(xs, n)
    decreases m
  {
    hide Canonical;
    if n < m {
      Stuck(xs, n, m - 1);
    }
  }
}
