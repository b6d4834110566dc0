// How a traffic shift splits its reduction among the providers that lose weight.
// `ws` are their weights in order, `reduction` at most their sum.
module TrafficShift {
  import opened Sums

  function Min(a: int, b: int): int {
    if a < b then a else b
  }

  predicate Splittable(ws: seq<int>, reduction: int) {
    && |ws| > 0
    && (forall i :: 0 <= i < |ws| ==> 0 <= ws[i])
    && 0 < reduction <= Sum(ws)
  }

  // What entry k asks for: its proportional part rounded down, and for the last
  // entry everything still missing.
  function Asked(ws: seq<int>, reduction: int, k: nat, remaining: int): int
    requires k < |ws| && Sum(ws) > 0
  {
    if k + 1 == |ws| then remaining else reduction * ws[k] / Sum(ws)
  }

  // The shares of the first k entries, each capped by its weight and by what remains.
  function Shares(ws: seq<int>, reduction: int, k: nat): (shares: seq<int>)
    requires k <= |ws| && Sum(ws) > 0
    ensures |shares| == k
  {
    if k == 0 then [] else
      var before := Shares(ws, reduction, k - 1);
      var remaining := reduction - Sum(before);
      before + [Min(Min(Asked(ws, reduction, k - 1, remaining), ws[k - 1]), remaining)]
  }

  function Taken(ws: seq<int>, reduction: int): int
    requires Sum(ws) > 0
  {
    Sum(Shares(ws, reduction, |ws|))
  }

  lemma {:induction false} SharesPrefix(ws: seq<int>, reduction: int, k: nat, n: nat)
    requires k <= n <= |ws| && Sum(ws) > 0
    ensures Shares(ws, reduction, n)[..k] == Shares(ws, reduction, k)
    decreases n
  {
    if k < n { SharesPrefix(ws, reduction, k, n - 1); }
  }

  lemma MulMono(a: int, b: int, t: int)
    requires a <= b && 0 <= t
    ensures a * t <= b * t
  {
    assert (b - a) * t >= 0;
  }

  lemma CancelLess(a: int, b: int, t: int)
    requires a * t < b * t && 0 < t
    ensures a < b
  {
    if b <= a { MulMono(b, a, t); }
  }

  lemma DivBounds(x: int, t: int)
    requires 0 < t
    ensures x / t * t <= x < (x / t + 1) * t
  {
    assert x == x / t * t + x % t;
  }

  lemma FloorFacts(r: int, w: int, total: int)
    requires 0 <= r <= total && 0 <= w && total > 0
    ensures var q := r * w / total;
      && 0 <= q <= w
      && q * total <= r * w < q * total + total
      && (q == 0 <==> r * w < total)
  {
    var x := r * w;
    MulMono(0, r, w);
    MulMono(r, total, w);
    var q := x / total;
    DivBounds(x, total);
    CancelLess(0, q + 1, total);
    CancelLess(q, w + 1, total);
    if x < total { CancelLess(q, 1, total); }
  }

  lemma FloorSumStep(sum: int, q: int, r: int, part: int, w: int, total: int)
    requires sum * total <= r * part && q * total <= r * w
    ensures (sum + q) * total <= r * (part + w)
  {
    assert (sum + q) * total == sum * total + q * total;
    assert r * (part + w) == r * part + r * w;
  }

  lemma FloorSumStepBelow(sum: int, q: int, r: int, part: int, w: int, total: int, k: int)
    requires (sum + k) * total >= r * part && r * w < q * total + total
    ensures (sum + q + k + 1) * total > r * (part + w)
  {
    assert (sum + q + k + 1) * total == (sum + k) * total + q * total + total;
    assert r * (part + w) == r * part + r * w;
  }

  lemma FitsIn(x: int, r: int, part: int, total: int)
    requires x * total <= r * part && part <= total && 0 < total && 0 <= r
    ensures x <= r
  {
    MulMono(part, total, r);
    CancelLess(x, r + 1, total);
  }

  lemma {:induction false} PrefixAtMostWhole(ws: seq<int>, k: nat, n: nat)
    requires k <= n <= |ws|
    requires forall i :: 0 <= i < |ws| ==> 0 <= ws[i]
    ensures 0 <= SumTo(ws, k) <= SumTo(ws, n)
    decreases n
  {
    if k < n { PrefixAtMostWhole(ws, k, n - 1); } else { SumToNonNegative(ws, n); }
  }

  // A running sum of k rounded-down parts is within [0, r], at most the exact
  // proportional amount r * part / total, and less than k below it.
  predicate NearProportion(sum: int, r: int, part: int, total: int, k: nat) {
    && 0 <= sum <= r
    && sum * total <= r * part
    && (sum + k) * total >= r * part
    && (k > 0 ==> (sum + k) * total > r * part)
  }

  lemma NearStep(sum: int, r: int, part: int, w: int, total: int, k: nat)
    requires NearProportion(sum, r, part, total, k)
    requires 0 <= w && 0 <= part && part + w <= total && 0 < r <= total
    ensures var q := r * w / total;
      0 <= q <= w && q <= r - sum && NearProportion(sum + q, r, part + w, total, k + 1)
  {
    var q := r * w / total;
    FloorFacts(r, w, total);
    FloorSumStep(sum, q, r, part, w, total);
    FloorSumStepBelow(sum, q, r, part, w, total, k);
    FitsIn(sum + q, r, part + w, total);
  }

  // Before the last entry neither cap ever binds: the share is the rounded-down
  // proportional part, and the running sum stays near the proportional amount.
  lemma {:induction false} CapsNeverBind(ws: seq<int>, r: int, k: nat)
    requires Splittable(ws, r) && k < |ws|
    ensures NearProportion(Sum(Shares(ws, r, k)), r, SumTo(ws, k), Sum(ws), k)
    ensures k > 0 ==> Shares(ws, r, k)[k - 1] == r * ws[k - 1] / Sum(ws)
  {
    if k > 0 {
      CapsNeverBind(ws, r, k - 1);
      PrefixAtMostWhole(ws, k - 1, |ws|);
      PrefixAtMostWhole(ws, k, |ws|);
      var before := Shares(ws, r, k - 1);
      NearStep(Sum(before), r, SumTo(ws, k - 1), ws[k - 1], Sum(ws), k - 1);
      SumToAppend(before, r * ws[k - 1] / Sum(ws));
    }
  }

  lemma LastShare(ws: seq<int>, r: int)
    requires Splittable(ws, r)
    ensures var sum := Sum(Shares(ws, r, |ws| - 1));
      Taken(ws, r) == sum + Min(r - sum, ws[|ws| - 1])
  {
    var before := Shares(ws, r, |ws| - 1);
    var last := Min(r - Sum(before), ws[|ws| - 1]);
    assert Shares(ws, r, |ws|) == before + [last];
    SumToAppend(before, last);
  }

  lemma AlmostAll(sum: int, w: int, r: int, part: int, total: int, k: int)
    requires (sum + k) * total > r * part
    requires total == part + w && 0 <= w && 0 < r <= total
    ensures sum + w > r - k
  {
    MulMono(r, total, w);
    assert r * total == r * part + r * w;
    assert (sum + k + w) * total == (sum + k) * total + w * total;
    CancelLess(r, sum + k + w, total);
  }

  // Together the others lose at most the reduction: all of it when there is one
  // of them, and more than reduction - (m - 1) when there are m >= 2.
  lemma TakenBounds(ws: seq<int>, r: int)
    requires Splittable(ws, r)
    ensures Taken(ws, r) <= r
    ensures |ws| == 1 ==> Taken(ws, r) == r
    ensures |ws| >= 2 ==> Taken(ws, r) > r - (|ws| - 1)
  {
    var k := |ws| - 1;
    CapsNeverBind(ws, r, k);
    LastShare(ws, r);
    var sum, w := Sum(Shares(ws, r, k)), ws[k];
    if k > 0 {
      AlmostAll(sum, w, r, SumTo(ws, k), Sum(ws), k);
    }
  }

  // The reduction is taken in full exactly when the last entry can carry what
  // the rounded-down parts of the entries before it leave over.
  lemma TakenInFull(ws: seq<int>, r: int)
    requires Splittable(ws, r)
    ensures Taken(ws, r) == r <==> r - Sum(Shares(ws, r, |ws| - 1)) <= ws[|ws| - 1]
  {
    LastShare(ws, r);
  }

  lemma {:induction false} FloorsAllZero(ws: seq<int>, r: int, k: nat)
    requires Splittable(ws, r) && k < |ws|
    ensures Sum(Shares(ws, r, k)) == 0 <==> forall i :: 0 <= i < k ==> r * ws[i] < Sum(ws)
  {
    if k > 0 {
      FloorsAllZero(ws, r, k - 1);
      CapsNeverBind(ws, r, k - 1);
      CapsNeverBind(ws, r, k);
      FloorFacts(r, ws[k - 1], Sum(ws));
      var before := Shares(ws, r, k - 1);
      assert Shares(ws, r, k) == before + [r * ws[k - 1] / Sum(ws)];
      SumToAppend(before, r * ws[k - 1] / Sum(ws));
    }
  }

  // A shift takes nothing at all exactly when the last entry has no weight and
  // every other proportional part rounds down to zero.
  lemma TakesNothingExactly(ws: seq<int>, r: int)
    requires Splittable(ws, r)
    ensures Taken(ws, r) == 0 <==>
      ws[|ws| - 1] == 0 && forall i :: 0 <= i < |ws| - 1 ==> r * ws[i] < Sum(ws)
  {
    LastShare(ws, r);
    FloorsAllZero(ws, r, |ws| - 1);
    CapsNeverBind(ws, r, |ws| - 1);
  }

  // The stall is real: with weights 1, 1, 0 a step of one percent takes nothing.
  lemma StallExample()
    ensures Splittable([1, 1, 0], 1) && Taken([1, 1, 0], 1) == 0
  {
    var ws := [1, 1, 0];
    assert SumTo(ws, 3) == 2 by {
      assert SumTo(ws, 1) == 1 && SumTo(ws, 2) == 2;
    }
    TakesNothingExactly(ws, 1);
  }

  // Every share lies between zero and the entry's weight.
  lemma {:induction false} ShareInRange(ws: seq<int>, r: int, k: nat)
    requires Splittable(ws, r) && k < |ws|
    ensures 0 <= Shares(ws, r, |ws|)[k] <= ws[k]
  {
    SharesPrefix(ws, r, k + 1, |ws|);
    assert Shares(ws, r, |ws|)[k] == Shares(ws, r, k + 1)[k];
    CapsNeverBind(ws, r, k);
    if k + 1 < |ws| {
      CapsNeverBind(ws, r, k + 1);
      FloorFacts(r, ws[k], Sum(ws));
    }
  }
}
