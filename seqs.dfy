/** First-match search by id over a list, as the in-memory repositories and
    `Product.get_variation_by_id` perform it, and enumerations of a set. */
module Seqs {
  import opened Messages

  /** The index of the first element whose key is `k`, if any. */
  function FirstIndex<T>(s: seq<T>, key: T -> Id, k: Id): (r: Option<nat>)
    ensures r.Some? ==> r.value < |s| && key(s[r.value]) == k
    ensures r.Some? ==> forall j :: 0 <= j < r.value ==> key(s[j]) != k
    ensures r.None? <==> forall j :: 0 <= j < |s| ==> key(s[j]) != k
  {
    if s == [] then None
    else if key(s[0]) == k then Some(0)
    else match FirstIndex(s[1..], key, k)
      case None => None
      case Some(i) => Some(i + 1)
  }

  /** The first element whose key is `k`, or None. */
  function Lookup<T>(s: seq<T>, key: T -> Id, k: Id): (r: Option<T>)
    ensures r.Some? ==> r.value in s && key(r.value) == k
    ensures r.None? <==> forall j :: 0 <= j < |s| ==> key(s[j]) != k
  {
    match FirstIndex(s, key, k)
    case None => None
    case Some(i) => Some(s[i])
  }

  /** Whether `s` lists every element of `xs` exactly once. */
  ghost predicate Enumerates<T>(s: seq<T>, xs: set<T>) {
    (forall i, j :: 0 <= i < j < |s| ==> s[i] != s[j]) &&
    (set x | x in s) == xs
  }

  /** Iterating a set: some order of its elements, each once. */
  method Enumerate<T>(xs: set<T>) returns (s: seq<T>)
    ensures Enumerates(s, xs)
  {
    var remaining := xs;
    s := [];
    while remaining != {}
      invariant remaining <= xs
      invariant forall i :: 0 <= i < |s| ==> s[i] in xs && s[i] !in remaining
      invariant forall i, j :: 0 <= i < j < |s| ==> s[i] != s[j]
      invariant (set x | x in s) + remaining == xs
      decreases |remaining|
    {
      var x :| x in remaining;
      s := s + [x];
      remaining := remaining - {x};
    }
  }

  /** The queues of `qs` one after the other. */
  function Flatten<T>(qs: seq<seq<T>>): seq<T>
  {
    if qs == [] then [] else Flatten(qs[..|qs| - 1]) + qs[|qs| - 1]
  }

  /** Flattening empty queues yields nothing. */
  lemma {:induction false} FlattenEmpty<T>(qs: seq<seq<T>>)
    requires forall i :: 0 <= i < |qs| ==> qs[i] == []
    ensures Flatten(qs) == []
  {
    if qs != [] {
      FlattenEmpty(qs[..|qs| - 1]);
    }
  }

  /** Flattening distributes over concatenation. */
  lemma {:induction false} FlattenConcat<T>(a: seq<seq<T>>, b: seq<seq<T>>)
    ensures Flatten(a + b) == Flatten(a) + Flatten(b)
    decreases |b|
  {
    if b == [] {
      assert a + b == a;
    } else {
      assert (a + b)[..|a + b| - 1] == a + b[..|b| - 1];
      FlattenConcat(a, b[..|b| - 1]);
    }
  }

  /** A search that stops at index `i` finds exactly what `Lookup` finds. */
  lemma LookupAt<T>(s: seq<T>, key: T -> Id, k: Id, i: nat)
    requires i < |s| && key(s[i]) == k
    requires forall j :: 0 <= j < i ==> key(s[j]) != k
    ensures FirstIndex(s, key, k) == Some(i)
    ensures Lookup(s, key, k) == Some(s[i])
  {
  }
}
