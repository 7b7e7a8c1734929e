/** Go's `http.Header` and `url.Values` are both maps from a key to the list
    of values added under it; `Add` appends and never replaces. */
module Multimaps {

  type Multimap = map<string, seq<string>>

  /** The values recorded under `k`, empty when the key is absent. */
  function Values(m: Multimap, k: string): seq<string> {
    if k in m then m[k] else []
  }

  /** `Header.Get` / `Values.Get`: the first value under `k`, or "" when there is none. */
  function First(m: Multimap, k: string): string {
    if Values(m, k) == [] then "" else Values(m, k)[0]
  }

  /** `Add(k, v)`: appends `v` to the values of `k` and leaves every other key alone. */
  function Add(m: Multimap, k: string, v: string): (r: Multimap)
    ensures Values(r, k) == Values(m, k) + [v]
    ensures forall j :: j != k ==> Values(r, j) == Values(m, j)
    ensures r.Keys == m.Keys + {k}
  {
    m[k := Values(m, k) + [v]]
  }

  predicate Distinct(s: seq<string>) {
    forall i, j :: 0 <= i < j < |s| ==> s[i] != s[j]
  }

  /** `order` lists every key of `q` exactly once: one possible iteration order of a Go map. */
  predicate Enumerates(order: seq<string>, q: map<string, string>) {
    && Distinct(order)
    && (forall k :: k in q ==> k in order)
    && (forall k :: k in order ==> k in q)
  }

  /** `for k, v := range q { m.Add(k, v) }`, visiting the keys in `order`. */
  function AddEach(m: Multimap, q: map<string, string>, order: seq<string>): (r: Multimap)
    requires forall k :: k in order ==> k in q
    ensures m.Keys <= r.Keys
    ensures r.Keys <= m.Keys + q.Keys
    decreases |order|
  {
    if order == [] then m else AddEach(Add(m, order[0], q[order[0]]), q, order[1..])
  }

  lemma DistinctTail(order: seq<string>)
    requires order != [] && Distinct(order)
    ensures Distinct(order[1..]) && order[0] !in order[1..]
  {
    var rest := order[1..];
    forall i | 0 <= i < |rest| ensures rest[i] != order[0] {
      assert rest[i] == order[i + 1];
    }
    forall i, j | 0 <= i < j < |rest| ensures rest[i] != rest[j] {
      assert rest[i] == order[i + 1] && rest[j] == order[j + 1];
    }
  }

  /** A visited key gains exactly its one value at the end of its list; a key
      that is not visited keeps its values. */
  lemma {:induction false} AddEachValue(m: Multimap, q: map<string, string>, order: seq<string>, k: string)
    requires forall k :: k in order ==> k in q
    requires Distinct(order)
    ensures Values(AddEach(m, q, order), k) == Values(m, k) + (if k in order then [q[k]] else [])
    decreases |order|
  {
    if order != [] {
      var a, rest := order[0], order[1..];
      DistinctTail(order);
      assert k in order <==> k == a || k in rest by {
        assert order == [a] + rest;
      }
      AddEachValue(Add(m, a, q[a]), q, rest, k);
    }
  }

  lemma {:induction false} AddEachKeys(m: Multimap, q: map<string, string>, order: seq<string>)
    requires forall k :: k in order ==> k in q
    ensures AddEach(m, q, order).Keys == m.Keys + (set k | k in order)
    decreases |order|
  {
    if order != [] {
      var a, rest := order[0], order[1..];
      AddEachKeys(Add(m, a, q[a]), q, rest);
      assert (set k | k in order) == {a} + (set k | k in rest) by {
        assert order == [a] + rest;
      }
    }
  }

  /** Both facts about every key at once. */
  lemma AddEachValues(m: Multimap, q: map<string, string>, order: seq<string>)
    requires forall k :: k in order ==> k in q
    requires Distinct(order)
    ensures forall k :: Values(AddEach(m, q, order), k) == Values(m, k) + (if k in order then [q[k]] else [])
    ensures AddEach(m, q, order).Keys == m.Keys + (set k | k in order)
  {
    forall k ensures Values(AddEach(m, q, order), k) == Values(m, k) + (if k in order then [q[k]] else []) {
      AddEachValue(m, q, order, k);
    }
    AddEachKeys(m, q, order);
  }

  /** Two multimaps with the same keys and the same values under every key are equal. */
  lemma SameValuesEqual(m1: Multimap, m2: Multimap)
    requires m1.Keys == m2.Keys
    requires forall k :: Values(m1, k) == Values(m2, k)
    ensures m1 == m2
  {
    forall k | k in m1 ensures m1[k] == m2[k] {
      assert Values(m1, k) == Values(m2, k);
    }
  }
}
