// Small shared datatypes and the finite sums the invariants are stated with.
module Wrappers {
  datatype Option<+T> = None | Some(value: T)

  // An identifier; only its identity matters.
  datatype Name = Name(text: string)

  datatype Result<+T, +E> = Ok(value: T) | Err(error: E)

  // Subtraction that stops at zero.
  function Minus(a: nat, b: nat): nat {
    if a < b then 0 else a - b
  }

  // r is q with some entries left out: r[k] is q[at[k]], in q's order.
  ghost predicate Thinned<T>(q: seq<T>, r: seq<T>, at: seq<nat>) {
    && |at| == |r|
    && (forall k :: 0 <= k < |r| ==> at[k] < |q| && r[k] == q[at[k]])
    && (forall j, k :: 0 <= j < k < |r| ==> at[j] < at[k])
  }

  ghost predicate Distinct<T>(s: seq<T>) {
    forall i, j :: 0 <= i < j < |s| ==> s[i] != s[j]
  }
}

module Sums {
  // The sum of the first n entries.
  function SumTo(s: seq<int>, n: nat): int
    requires n <= |s|
  {
    if n == 0 then 0 else SumTo(s, n - 1) + s[n - 1]
  }

  function Sum(s: seq<int>): int {
    SumTo(s, |s|)
  }

  lemma {:induction false} SumToAgree(s: seq<int>, t: seq<int>, n: nat)
    requires n <= |s| && n <= |t|
    requires forall i :: 0 <= i < n ==> s[i] == t[i]
    ensures SumTo(s, n) == SumTo(t, n)
  {
    if n > 0 { SumToAgree(s, t, n - 1); }
  }

  lemma {:induction false} SumToUpdate(s: seq<int>, j: nat, v: int, n: nat)
    requires j < |s| && n <= |s|
    ensures SumTo(s[j := v], n) == SumTo(s, n) + (if j < n then v - s[j] else 0)
  {
    if n > 0 { SumToUpdate(s, j, v, n - 1); }
  }

  lemma {:induction false} SumToAppend(s: seq<int>, x: int)
    ensures Sum(s + [x]) == Sum(s) + x
  {
    SumToAgree(s + [x], s, |s|);
  }

  lemma {:induction false} SumToNonNegative(s: seq<int>, n: nat)
    requires n <= |s|
    requires forall i :: 0 <= i < n ==> 0 <= s[i]
    ensures 0 <= SumTo(s, n)
    ensures forall i :: 0 <= i < n ==> s[i] <= SumTo(s, n)
  {
    if n > 0 { SumToNonNegative(s, n - 1); }
  }

  // The sum of all values of a map.
  ghost function MapSum<K(!new)>(m: map<K, int>): int {
    if m == map[] then 0 else
      var k :| k in m;
      m[k] + MapSum(m - {k})
  }

  lemma {:induction false} MapSumRemove<K(!new)>(m: map<K, int>, k: K)
    requires k in m
    ensures MapSum(m) == m[k] + MapSum(m - {k})
    decreases |m|
  {
    var c :| c in m && MapSum(m) == m[c] + MapSum(m - {c});
    if c != k {
      assert |m - {c}| < |m| && |m - {k}| < |m| by {
        assert (m - {c}).Keys == m.Keys - {c} && (m - {k}).Keys == m.Keys - {k};
      }
      MapSumRemove(m - {c}, k);
      MapSumRemove(m - {k}, c);
      assert m - {c} - {k} == m - {k} - {c};
    }
  }

  // Writing one key changes the sum by the difference of the values.
  lemma {:induction false} MapSumUpdate<K(!new)>(m: map<K, int>, k: K, v: int)
    ensures MapSum(m[k := v]) == MapSum(m) + v - (if k in m then m[k] else 0)
  {
    MapSumRemove(m[k := v], k);
    if k in m {
      MapSumRemove(m, k);
      assert m[k := v] - {k} == m - {k};
    } else {
      assert m[k := v] - {k} == m;
    }
  }

  lemma SubsetIsSmaller<T>(a: set<T>, b: set<T>)
    requires a <= b
    ensures |a| <= |b|
  {
    assert b == a + (b - a);
  }
}
