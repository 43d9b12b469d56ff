/** The ordered containers of the source: a `BTreeMap` keyed by account, and the sorted
    vectors that are searched with `binary_search_by_key`, are sequences of key/value pairs
    in strictly ascending key order; a `BTreeSet` is an increasing sequence. */
module Ordered {
  import opened Numbers

  ghost predicate Ascending<V>(s: seq<(nat, V)>) {
    forall i, j :: 0 <= i < j < |s| ==> s[i].0 < s[j].0
  }

  /** The position of the first key that is not below `k`: where a binary search over an
      ascending sequence either finds `k` or says it has to be inserted. */
  function Position<V>(s: seq<(nat, V)>, k: nat): (i: nat)
    ensures i <= |s|
    ensures forall j :: 0 <= j < i ==> s[j].0 < k
    ensures i < |s| ==> k <= s[i].0
  {
    if s == [] || k <= s[0].0 then 0 else 1 + Position(s[1..], k)
  }

  predicate Has<V>(s: seq<(nat, V)>, k: nat) {
    var i := Position(s, k);
    i < |s| && s[i].0 == k
  }

  function Get<V>(s: seq<(nat, V)>, k: nat): Option<V> {
    var i := Position(s, k);
    if i < |s| && s[i].0 == k then Some(s[i].1) else None
  }

  /** Overwrite the value at `k`, or insert `k` at the place that keeps the order. */
  function Put<V>(s: seq<(nat, V)>, k: nat, v: V): seq<(nat, V)> {
    var i := Position(s, k);
    if i < |s| && s[i].0 == k then s[i := (k, v)] else s[..i] + [(k, v)] + s[i..]
  }

  /** In an ascending sequence the entry for a key is unique, so looking it up finds it. */
  lemma {:induction false} GetAt<V>(s: seq<(nat, V)>, i: nat)
    requires Ascending(s) && i < |s|
    ensures Position(s, s[i].0) == i
    ensures Get(s, s[i].0) == Some(s[i].1)
  {
  }

  lemma {:induction false} GetIn<V>(s: seq<(nat, V)>, k: nat)
    requires Get(s, k).Some?
    ensures (k, Get(s, k).value) in s
  {
    assert s[Position(s, k)] == (k, Get(s, k).value);
  }

  lemma {:induction false} PutAscending<V>(s: seq<(nat, V)>, k: nat, v: V)
    requires Ascending(s)
    ensures Ascending(Put(s, k, v))
  {
  }

  /** `Put` changes the entry of its own key and nothing else. */
  lemma {:induction false} PutGet<V>(s: seq<(nat, V)>, k: nat, v: V, q: nat)
    requires Ascending(s)
    ensures Get(Put(s, k, v), q) == if q == k then Some(v) else Get(s, q)
  {
    PutAscending(s, k, v);
    var t, i := Put(s, k, v), Position(s, k);
    assert t[i] == (k, v);
    if q == k {
      GetAt(t, i);
    } else if Get(s, q).Some? {
      var p := Position(s, q);
      var p' := if p < i || Has(s, k) then p else p + 1;
      assert t[p'] == s[p];
      GetAt(t, p');
    } else if Get(t, q).Some? {
      var p' := Position(t, q);
      var p := if p' < i || Has(s, k) then p' else p' - 1;
      assert s[p] == t[p'];
      GetAt(s, p);
      assert false;
    }
  }

  lemma {:induction false} PutLength<V>(s: seq<(nat, V)>, k: nat, v: V)
    ensures |Put(s, k, v)| == if Has(s, k) then |s| else |s| + 1
  {
  }

  /** The total of a measure of the stored values. */
  ghost function Sum<V>(s: seq<(nat, V)>, f: V -> nat): nat {
    if s == [] then 0 else f(s[0].1) + Sum(s[1..], f)
  }

  lemma {:induction false} SumConcat<V>(s: seq<(nat, V)>, t: seq<(nat, V)>, f: V -> nat)
    ensures Sum(s + t, f) == Sum(s, f) + Sum(t, f)
  {
    if s == [] {
      assert s + t == t;
    } else {
      SumConcat(s[1..], t, f);
      assert (s + t)[1..] == s[1..] + t;
    }
  }

  lemma {:induction false} SumLast<V>(s: seq<(nat, V)>, f: V -> nat)
    requires s != []
    ensures Sum(s, f) == Sum(s[..|s| - 1], f) + f(s[|s| - 1].1)
  {
    assert s == s[..|s| - 1] + [s[|s| - 1]];
    SumConcat(s[..|s| - 1], [s[|s| - 1]], f);
  }

  /** `Put` replaces at most the one entry of its key. */
  lemma {:induction false} PutParts<V>(s: seq<(nat, V)>, k: nat, v: V) returns (front: seq<(nat, V)>, kept: seq<(nat, V)>, back: seq<(nat, V)>)
    ensures s == front + kept + back && Put(s, k, v) == front + [(k, v)] + back
    ensures kept == match Get(s, k) case Some(x) => [(k, x)] case None => []
  {
    var i := Position(s, k);
    var rest := if Has(s, k) then i + 1 else i;
    front, kept, back := s[..i], s[i..rest], s[rest..];
    if Has(s, k) {
      assert kept == [s[i]];
    }
  }

  /** Storing a value moves the total by exactly the change at that key. */
  lemma {:induction false} PutSum<V>(s: seq<(nat, V)>, k: nat, v: V, f: V -> nat)
    ensures Sum(Put(s, k, v), f)
         == Sum(s, f) - (if Get(s, k).Some? then f(Get(s, k).value) else 0) + f(v)
  {
    hide Put, Get;
    var front, kept, back := PutParts(s, k, v);
    SumConcat(front + kept, back, f);
    SumConcat(front, kept, f);
    SumConcat(front + [(k, v)], back, f);
    SumConcat(front, [(k, v)], f);
  }

  ghost predicate Nondecreasing(s: seq<nat>) {
    forall i, j :: 0 <= i < j < |s| ==> s[i] <= s[j]
  }

  ghost predicate Distinct<T>(s: seq<T>) {
    forall i, j :: 0 <= i < j < |s| ==> s[i] != s[j]
  }

  function Elements<T(==, !new)>(s: seq<T>): (r: set<T>)
    ensures forall x :: x in r <==> x in s
  {
    if s == [] then {}
    else
      assert s == s[..|s| - 1] + [s[|s| - 1]];
      Elements(s[..|s| - 1]) + {s[|s| - 1]}
  }

  lemma {:induction false} ElementCount<T(!new)>(s: seq<T>)
    ensures |Elements(s)| <= |s|
    ensures Distinct(s) ==> |Elements(s)| == |s|
  {
    if s != [] {
      ElementCount(s[..|s| - 1]);
    }
  }

  ghost predicate Increasing(s: seq<nat>) {
    forall i, j :: 0 <= i < j < |s| ==> s[i] < s[j]
  }

  /** How many elements come before `x`. */
  function Rank(s: seq<nat>, x: nat): (i: nat)
    ensures i <= |s|
    ensures forall j :: 0 <= j < i ==> s[j] < x
    ensures i < |s| ==> x <= s[i]
  {
    if s == [] || x <= s[0] then 0 else 1 + Rank(s[1..], x)
  }

  /** `BTreeSet::insert`. */
  function Insert(s: seq<nat>, x: nat): seq<nat> {
    var i := Rank(s, x);
    if i < |s| && s[i] == x then s else s[..i] + [x] + s[i..]
  }

  lemma {:induction false} InsertElements(s: seq<nat>, x: nat)
    requires Increasing(s)
    ensures Increasing(Insert(s, x))
    ensures forall y :: y in Insert(s, x) <==> y in s || y == x
    ensures x !in s ==> |Insert(s, x)| == |s| + 1
  {
    var i := Rank(s, x);
    assert forall y :: y in s <==> y in s[..i] || y in s[i..] by {
      assert s == s[..i] + s[i..];
    }
  }
}
