// Smooth weighted round robin as pure arithmetic: how far anybody can fall behind or run ahead, by an invariant over
// every subset of entries, and the exact proportion after every multiple of the total weight in turns.
module SmoothRoundRobin {
  import opened Sums

  // Every turn each entry of `currents` grows by its weight; the first largest one
  // wins and pays the total weight W.

  // The position of the first largest of the first n entries.
  function FirstMax(s: seq<int>, n: nat): (best: nat)
    requires 0 < n <= |s|
    ensures best < n
    ensures forall i :: 0 <= i < n ==> s[i] <= s[best]
    ensures forall i :: 0 <= i < best ==> s[i] < s[best]
  {
    if n == 1 then 0 else
      var best := FirstMax(s, n - 1);
      if s[n - 1] > s[best] then n - 1 else best
  }

  function Raised(currents: seq<int>, weights: seq<int>): (r: seq<int>)
    requires |currents| == |weights|
  {
    seq(|currents|, i requires 0 <= i < |currents| => currents[i] + weights[i])
  }

  function Winner(currents: seq<int>, weights: seq<int>): (j: nat)
    requires |currents| == |weights| > 0
    ensures j < |weights|
  {
    FirstMax(Raised(currents, weights), |weights|)
  }

  function Turn(currents: seq<int>, weights: seq<int>): (next: seq<int>)
    requires |currents| == |weights| > 0
    ensures |next| == |weights|
  {
    var r := Raised(currents, weights);
    var j := Winner(currents, weights);
    r[j := r[j] - Sum(weights)]
  }

  datatype Game = Game(currents: seq<int>, picks: seq<int>)

  function Zeros(m: nat): (z: seq<int>) {
    seq(m, _ => 0)
  }

  // n turns from the currents `start`.
  function PlayFrom(start: seq<int>, weights: seq<int>, n: nat): (g: Game)
    requires |start| == |weights| > 0
    ensures |g.currents| == |g.picks| == |weights|
  {
    if n == 0 then Game(start, Zeros(|weights|)) else
      var g := PlayFrom(start, weights, n - 1);
      var j := Winner(g.currents, weights);
      Game(Turn(g.currents, weights), g.picks[j := g.picks[j] + 1])
  }

  // n turns from all-zero currents.
  function Play(weights: seq<int>, n: nat): (g: Game)
    requires |weights| > 0
    ensures |g.currents| == |g.picks| == |weights|
  {
    PlayFrom(Zeros(|weights|), weights, n)
  }

  // ---- Sums over a subset of the entries ----

  ghost function SumIn(s: seq<int>, S: set<int>, n: nat): int
    requires n <= |s|
  {
    if n == 0 then 0 else SumIn(s, S, n - 1) + (if n - 1 in S then s[n - 1] else 0)
  }

  ghost predicate Positions(S: set<int>, n: nat) {
    forall i :: i in S ==> 0 <= i < n
  }

  lemma {:induction false} SumInRaised(c: seq<int>, w: seq<int>, S: set<int>, n: nat)
    requires |c| == |w| && n <= |w|
    ensures SumIn(Raised(c, w), S, n) == SumIn(c, S, n) + SumIn(w, S, n)
  {
    if n > 0 { SumInRaised(c, w, S, n - 1); }
  }

  lemma {:induction false} SumInUpdate(s: seq<int>, S: set<int>, j: nat, v: int, n: nat)
    requires j < |s| && n <= |s|
    ensures SumIn(s[j := v], S, n) == SumIn(s, S, n) + (if j in S && j < n then v - s[j] else 0)
  {
    if n > 0 { SumInUpdate(s, S, j, v, n - 1); }
  }

  lemma {:induction false} SumInExtend(s: seq<int>, S: set<int>, j: nat, n: nat)
    requires j < |s| && n <= |s| && j !in S
    ensures SumIn(s, S + {j}, n) == SumIn(s, S, n) + (if j < n then s[j] else 0)
  {
    if n > 0 { SumInExtend(s, S, j, n - 1); }
  }

  lemma {:induction false} SumInAtMostWhole(w: seq<int>, S: set<int>, n: nat)
    requires n <= |w|
    requires forall i :: 0 <= i < |w| ==> 0 <= w[i]
    ensures SumIn(w, S, n) <= SumTo(w, n)
  {
    if n > 0 { SumInAtMostWhole(w, S, n - 1); }
  }

  lemma EmptyPositions(S: set<int>)
    requires Positions(S, 0)
    ensures S == {}
  {
    assert forall i :: i !in S;
  }

  // k * x by repeated addition, which keeps the sums below linear.
  ghost function Times(k: nat, x: int): int {
    if k == 0 then 0 else Times(k - 1, x) + x
  }

  lemma {:induction false} TimesIsProduct(k: nat, x: int)
    ensures Times(k, x) as real == k as real * x as real
  {
    if k > 0 {
      TimesIsProduct(k - 1, x);
      assert (k - 1) as real == k as real - 1.0;
    }
  }

  // A subset of k entries sums to at most k times the largest.
  lemma {:induction false} SumInAtMostMax(s: seq<int>, S: set<int>, top: int, n: nat)
    requires n <= |s|
    requires Positions(S, n)
    requires forall i :: 0 <= i < n ==> s[i] <= top
    ensures SumIn(s, S, n) <= Times(|S|, top)
    decreases n
  {
    if n == 0 {
      EmptyPositions(S);
    } else {
      var rest := S - {n - 1};
      SumInAtMostMax(s, rest, top, n - 1);
      SumInSame(s, S, rest, n - 1);
      if n - 1 in S {
        assert |S| == |rest| + 1;
      } else {
        assert rest == S;
      }
    }
  }

  lemma {:induction false} SumInSame(s: seq<int>, S: set<int>, T: set<int>, n: nat)
    requires n <= |s|
    requires forall i :: 0 <= i < n ==> (i in S <==> i in T)
    ensures SumIn(s, S, n) == SumIn(s, T, n)
  {
    if n > 0 { SumInSame(s, S, T, n - 1); }
  }

  lemma {:induction false} SumInSingleton(s: seq<int>, i: nat, n: nat)
    requires n <= |s|
    ensures SumIn(s, {i}, n) == if i < n then s[i] else 0
  {
    if n > 0 { SumInSingleton(s, i, n - 1); }
  }

  lemma {:induction false} FullSetIsAll(S: set<int>, n: nat)
    requires Positions(S, n)
    ensures |S| <= n
    ensures |S| == n ==> forall i :: 0 <= i < n ==> i in S
    decreases n
  {
    if n == 0 {
      EmptyPositions(S);
    } else {
      var rest := S - {n - 1};
      FullSetIsAll(rest, n - 1);
      if n - 1 in S {
        assert |S| == |rest| + 1;
        assert forall i :: 0 <= i < n - 1 && i in rest ==> i in S;
      } else {
        assert rest == S;
      }
    }
  }

  // ---- The bound W/(k+1) + ... + W/m ----

  ghost function HarmonicShare(total: int, k: nat, m: nat): real
    decreases m - k
  {
    if k >= m then 0.0 else total as real / (k + 1) as real + HarmonicShare(total, k + 1, m)
  }

  lemma {:induction false} HarmonicShareNonNegative(total: int, k: nat, m: nat)
    requires 0 <= total
    ensures 0.0 <= HarmonicShare(total, k, m)
    decreases m - k
  {
    if k < m { HarmonicShareNonNegative(total, k + 1, m); }
  }

  // Every k entries together are at most k * (W/(k+1) + ... + W/m).
  ghost predicate Bounded(c: seq<int>, S: set<int>, total: int) {
    SumIn(c, S, |c|) as real <= |S| as real * HarmonicShare(total, |S|, |c|)
  }

  ghost predicate BoundedAbove(c: seq<int>, weights: seq<int>) {
    |c| == |weights| && forall S: set<int> :: Positions(S, |c|) ==> Bounded(c, S, Sum(weights))
  }

  predicate BoundedBelow(c: seq<int>, weights: seq<int>) {
    |c| == |weights| && Sum(c) >= 0 && forall i :: 0 <= i < |c| ==> c[i] > -Sum(weights)
  }

  ghost predicate Balanced(c: seq<int>, weights: seq<int>) {
    BoundedAbove(c, weights) && BoundedBelow(c, weights) && Sum(c) == 0
  }

  predicate PositiveWeights(weights: seq<int>) {
    |weights| > 0 && forall i :: 0 <= i < |weights| ==> weights[i] > 0
  }

  lemma TotalIsPositive(weights: seq<int>)
    requires PositiveWeights(weights)
    ensures Sum(weights) > 0
  {
    SumToNonNegative(weights, |weights|);
    assert weights[0] > 0;
  }

  lemma {:induction false} RaisedSum(c: seq<int>, w: seq<int>, n: nat)
    requires |c| == |w| && n <= |w|
    ensures SumTo(Raised(c, w), n) == SumTo(c, n) + SumTo(w, n)
  {
    if n > 0 { RaisedSum(c, w, n - 1); }
  }

  lemma {:induction false} SumAtMostMaxTimes(s: seq<int>, n: nat)
    requires n <= |s|
    requires forall i :: 0 <= i < n ==> s[i] <= 0
    ensures SumTo(s, n) <= 0
  {
    if n > 0 { SumAtMostMaxTimes(s, n - 1); }
  }

  // The averaging argument: x is the raised sum of k entries, `top` the
  // winner's raised entry, t what both had before, and the winner pays `total`.
  lemma AverageReal(x: real, top: real, total: real, t: real, h: real, k: real, f: real)
    requires k >= 0.0 && f == k + 1.0
    requires x <= k * top
    requires x + top - total <= t
    requires t <= f * h
    ensures x <= k * (total / f + h)
  {
    var z := total / f + h;
    assert x + top <= f * z;
    ScaleDown(x, top, z, k, f);
  }

  lemma ScaleDown(x: real, top: real, z: real, k: real, f: real)
    requires k >= 0.0 && f == k + 1.0
    requires x <= k * top
    requires x + top <= f * z
    ensures x <= k * z
  {
    var d := f * z - x - top;
    assert k * d >= 0.0;
    assert k * d == f * (k * z) - k * x - k * top;
    assert f * x <= f * (k * z);
    CancelFactor(f, x, k * z);
  }

  lemma CancelFactor(f: real, x: real, y: real)
    requires f > 0.0 && f * x <= f * y
    ensures x <= y
  {
  }

  lemma PayerInside(c: seq<int>, weights: seq<int>, S: set<int>)
    requires PositiveWeights(weights) && |c| == |weights|
    requires Winner(c, weights) in S
    ensures SumIn(Turn(c, weights), S, |c|) <= SumIn(c, S, |c|)
  {
    var r, j := Raised(c, weights), Winner(c, weights);
    SumInUpdate(r, S, j, r[j] - Sum(weights), |c|);
    SumInRaised(c, weights, S, |c|);
    SumInAtMostWhole(weights, S, |c|);
  }

  lemma PayerOutside(c: seq<int>, weights: seq<int>, S: set<int>) returns (x: int, top: int)
    requires PositiveWeights(weights) && |c| == |weights|
    requires Positions(S, |c|) && Winner(c, weights) !in S
    ensures x == SumIn(Turn(c, weights), S, |c|)
    ensures x <= Times(|S|, top)
    ensures x + top - Sum(weights) <= SumIn(c, S + {Winner(c, weights) as int}, |c|)
  {
    var r, j := Raised(c, weights), Winner(c, weights);
    var T := S + {j as int};
    SumInUpdate(r, S, j, r[j] - Sum(weights), |c|);
    SumInRaised(c, weights, T, |c|);
    SumInAtMostWhole(weights, T, |c|);
    SumInExtend(r, S, j, |c|);
    SumInAtMostMax(r, S, r[j], |c|);
    x, top := SumIn(r, S, |c|), r[j];
  }

  lemma BoundShrinks(c: seq<int>, c': seq<int>, S: set<int>, total: int)
    requires |c'| == |c|
    requires SumIn(c', S, |c|) <= SumIn(c, S, |c|)
    requires Bounded(c, S, total)
    ensures Bounded(c', S, total)
  {
  }

  lemma BoundAverages(c: seq<int>, c': seq<int>, S: set<int>, T: set<int>, top: int, total: int)
    requires |c'| == |c| && |S| < |c| && |T| == |S| + 1
    requires SumIn(c', S, |c|) as real <= |S| as real * top as real
    requires SumIn(c', S, |c|) + top - total <= SumIn(c, T, |c|)
    requires Bounded(c, T, total)
    ensures Bounded(c', S, total)
  {
    var x, t, k, f := SumIn(c', S, |c|) as real, SumIn(c, T, |c|) as real, |S| as real, |T| as real;
    var h := HarmonicShare(total, |T|, |c|);
    assert HarmonicShare(total, |S|, |c|) == total as real / f + h;
    AverageReal(x, top as real, total as real, t, h, k, f);
  }

  lemma TurnKeepsBound(c: seq<int>, weights: seq<int>, S: set<int>)
    requires PositiveWeights(weights) && |c| == |weights|
    requires forall T: set<int> :: Positions(T, |c|) ==> Bounded(c, T, Sum(weights))
    requires Positions(S, |c|)
    ensures Bounded(Turn(c, weights), S, Sum(weights))
  {
    var j: int := Winner(c, weights);
    if j in S {
      PayerInside(c, weights, S);
      BoundShrinks(c, Turn(c, weights), S, Sum(weights));
    } else {
      var T := S + {j};
      assert |T| == |S| + 1 && Positions(T, |c|);
      FullSetIsAll(S, |c|);
      assert |S| < |c|;
      var x, top := PayerOutside(c, weights, S);
      TimesIsProduct(|S|, top);
      BoundAverages(c, Turn(c, weights), S, T, top, Sum(weights));
    }
  }

  lemma TurnKeepsSum(c: seq<int>, weights: seq<int>)
    requires |c| == |weights| > 0
    ensures Sum(Turn(c, weights)) == Sum(c)
  {
    var r, j := Raised(c, weights), Winner(c, weights);
    RaisedSum(c, weights, |c|);
    SumToUpdate(r, j, r[j] - Sum(weights), |c|);
  }

  // The winner's raised entry is positive as long as the sum is not negative.
  lemma TurnKeepsBelow(c: seq<int>, weights: seq<int>)
    requires PositiveWeights(weights) && BoundedBelow(c, weights)
    ensures BoundedBelow(Turn(c, weights), weights)
  {
    var r, j, total := Raised(c, weights), Winner(c, weights), Sum(weights);
    TotalIsPositive(weights);
    TurnKeepsSum(c, weights);
    RaisedSum(c, weights, |c|);
    if r[j] <= 0 { SumAtMostMaxTimes(r, |c|); }
    forall i | 0 <= i < |c| ensures Turn(c, weights)[i] > -total {
      assert r[i] == c[i] + weights[i];
    }
  }

  lemma TurnKeepsAbove(c: seq<int>, weights: seq<int>)
    requires PositiveWeights(weights) && BoundedAbove(c, weights)
    ensures BoundedAbove(Turn(c, weights), weights)
  {
    forall S: set<int> | Positions(S, |c|) ensures Bounded(Turn(c, weights), S, Sum(weights)) {
      TurnKeepsBound(c, weights, S);
    }
  }

  // One turn keeps the sum, the lower bound and every subset bound.
  lemma TurnKeepsBalanced(c: seq<int>, weights: seq<int>)
    requires PositiveWeights(weights)
    requires Balanced(c, weights)
    ensures Balanced(Turn(c, weights), weights)
  {
    TurnKeepsSum(c, weights);
    TurnKeepsBelow(c, weights);
    TurnKeepsAbove(c, weights);
  }

  lemma {:induction false} SumInNotPositive(s: seq<int>, S: set<int>, n: nat)
    requires n <= |s| && forall i :: 0 <= i < |s| ==> s[i] <= 0
    ensures SumIn(s, S, n) <= 0
  {
    if n > 0 { SumInNotPositive(s, S, n - 1); }
  }

  lemma StartIsAbove(c: seq<int>, weights: seq<int>)
    requires PositiveWeights(weights) && |c| == |weights| && forall i :: 0 <= i < |c| ==> c[i] <= 0
    ensures BoundedAbove(c, weights)
  {
    TotalIsPositive(weights);
    forall S: set<int> | Positions(S, |c|) ensures Bounded(c, S, Sum(weights)) {
      SumInNotPositive(c, S, |c|);
      HarmonicShareNonNegative(Sum(weights), |S|, |c|);
    }
  }

  lemma StartIsBelow(c: seq<int>, weights: seq<int>)
    requires PositiveWeights(weights) && |c| == |weights| && forall i :: 0 <= i < |c| ==> c[i] >= 0
    ensures BoundedBelow(c, weights)
  {
    TotalIsPositive(weights);
    SumToNonNegative(c, |c|);
  }

  lemma {:induction false} ZerosSum(m: nat, n: nat)
    requires n <= m
    ensures SumTo(Zeros(m), n) == 0
  {
    if n > 0 { ZerosSum(m, n - 1); }
  }

  lemma {:induction false} PlayIsBalanced(weights: seq<int>, n: nat)
    requires PositiveWeights(weights)
    ensures Balanced(Play(weights, n).currents, weights)
  {
    if n == 0 {
      ZerosSum(|weights|, |weights|);
      StartIsAbove(Zeros(|weights|), weights);
      StartIsBelow(Zeros(|weights|), weights);
    } else {
      PlayIsBalanced(weights, n - 1);
      TurnKeepsBalanced(Play(weights, n - 1).currents, weights);
    }
  }

  lemma OneTurn(start: seq<int>, weights: seq<int>, n: nat, i: nat)
    requires |start| == |weights| > 0 && i < |weights| && n > 0
    ensures var g, h := PlayFrom(start, weights, n - 1), PlayFrom(start, weights, n);
      var won := if i == Winner(g.currents, weights) then 1 else 0;
      && h.picks[i] == g.picks[i] + won
      && h.currents[i] == g.currents[i] + weights[i] - (if won == 1 then Sum(weights) else 0)
  {
  }

  lemma LedgerStep(n: int, w: int, p: int, total: int)
    ensures n * w - p * total == (n - 1) * w - p * total + w
    ensures n * w - (p + 1) * total == (n - 1) * w - p * total + w - total
  {
  }

  // The ledger: a current is what its owner had and earned less what it paid.
  lemma {:induction false} Ledger(start: seq<int>, weights: seq<int>, n: nat, i: nat)
    requires |start| == |weights| > 0 && i < |weights|
    ensures var g := PlayFrom(start, weights, n);
      g.currents[i] == start[i] + n * weights[i] - g.picks[i] * Sum(weights)
  {
    if n > 0 {
      Ledger(start, weights, n - 1, i);
      OneTurn(start, weights, n, i);
      LedgerStep(n, weights[i], PlayFrom(start, weights, n - 1).picks[i], Sum(weights));
    }
  }

  lemma EntryBound(c: seq<int>, weights: seq<int>, i: nat)
    requires BoundedAbove(c, weights) && i < |c|
    ensures c[i] as real <= HarmonicShare(Sum(weights), 1, |c|)
  {
    var S: set<int> := {i as int};
    SumInSingleton(c, i, |c|);
    assert Positions(S, |c|) && |S| == 1;
    assert Bounded(c, S, Sum(weights));
  }

  // Main result 1: after any number of turns every current lies strictly above
  // -W and is at most W/2 + ... + W/m.
  lemma CurrentBound(weights: seq<int>, n: nat, i: nat)
    requires PositiveWeights(weights) && i < |weights|
    ensures -Sum(weights) < Play(weights, n).currents[i]
    ensures Play(weights, n).currents[i] as real <= HarmonicShare(Sum(weights), 1, |weights|)
  {
    PlayIsBalanced(weights, n);
    EntryBound(Play(weights, n).currents, weights, i);
  }

  // p picks in n turns are less than one turn above the share n * w / total
  // and at most 1/2 + ... + 1/m turns below it.
  ghost predicate WithinLag(p: int, n: int, w: int, total: int, m: nat) {
    && p * total < n * w + total
    && (n * w - p * total) as real <= HarmonicShare(total, 1, m)
  }

  lemma LagFromCurrent(c: int, p: int, n: int, w: int, total: int, m: nat)
    requires c == n * w - p * total
    requires -total < c && c as real <= HarmonicShare(total, 1, m)
    ensures WithinLag(p, n, w, total, m)
  {
  }

  lemma LagBound(weights: seq<int>, n: nat, i: nat)
    requires PositiveWeights(weights) && i < |weights|
    ensures WithinLag(Play(weights, n).picks[i], n, weights[i], Sum(weights), |weights|)
  {
    CurrentBound(weights, n, i);
    Ledger(Zeros(|weights|), weights, n, i);
    var g := Play(weights, n);
    LagFromCurrent(g.currents[i], g.picks[i], n, weights[i], Sum(weights), |weights|);
  }

  // ---- From any starting currents ----

  // The same amount added everywhere changes nobody's turn.
  function Shifted(c: seq<int>, x: int): (r: seq<int>)
    ensures |r| == |c|
  {
    seq(|c|, i requires 0 <= i < |c| => c[i] + x)
  }

  lemma {:induction false} FirstMaxShifts(s: seq<int>, x: int, n: nat)
    requires 0 < n <= |s|
    ensures FirstMax(Shifted(s, x), n) == FirstMax(s, n)
  {
    if n > 1 { FirstMaxShifts(s, x, n - 1); }
  }

  lemma TurnShifts(c: seq<int>, weights: seq<int>, x: int)
    requires |c| == |weights| > 0
    ensures Winner(Shifted(c, x), weights) == Winner(c, weights)
    ensures Turn(Shifted(c, x), weights) == Shifted(Turn(c, weights), x)
  {
    assert Raised(Shifted(c, x), weights) == Shifted(Raised(c, weights), x);
    FirstMaxShifts(Raised(c, weights), x, |weights|);
  }

  lemma {:induction false} PlayShifts(start: seq<int>, weights: seq<int>, n: nat, x: int)
    requires |start| == |weights| > 0
    ensures PlayFrom(Shifted(start, x), weights, n).currents == Shifted(PlayFrom(start, weights, n).currents, x)
  {
    if n > 0 {
      PlayShifts(start, weights, n - 1, x);
      TurnShifts(PlayFrom(start, weights, n - 1).currents, weights, x);
    }
  }

  lemma {:induction false} PlayStaysAbove(start: seq<int>, weights: seq<int>, n: nat)
    requires PositiveWeights(weights) && BoundedAbove(start, weights)
    ensures BoundedAbove(PlayFrom(start, weights, n).currents, weights)
  {
    if n > 0 {
      PlayStaysAbove(start, weights, n - 1);
      TurnKeepsAbove(PlayFrom(start, weights, n - 1).currents, weights);
    }
  }

  lemma {:induction false} PlayStaysBelow(start: seq<int>, weights: seq<int>, n: nat)
    requires PositiveWeights(weights) && BoundedBelow(start, weights)
    ensures BoundedBelow(PlayFrom(start, weights, n).currents, weights)
  {
    if n > 0 {
      PlayStaysBelow(start, weights, n - 1);
      TurnKeepsBelow(PlayFrom(start, weights, n - 1).currents, weights);
    }
  }

  predicate Between(c: seq<int>, low: int, high: int) {
    forall i :: 0 <= i < |c| ==> low <= c[i] <= high
  }

  lemma CurrentAtMost(start: seq<int>, weights: seq<int>, n: nat, i: nat, high: int)
    requires PositiveWeights(weights) && |start| == |weights| && i < |weights|
    requires forall k :: 0 <= k < |start| ==> start[k] <= high
    ensures (PlayFrom(start, weights, n).currents[i] - high) as real <= HarmonicShare(Sum(weights), 1, |weights|)
  {
    StartIsAbove(Shifted(start, -high), weights);
    PlayStaysAbove(Shifted(start, -high), weights, n);
    PlayShifts(start, weights, n, -high);
    EntryBound(PlayFrom(Shifted(start, -high), weights, n).currents, weights, i);
  }

  lemma CurrentAbove(start: seq<int>, weights: seq<int>, n: nat, i: nat, low: int)
    requires PositiveWeights(weights) && |start| == |weights| && i < |weights|
    requires forall k :: 0 <= k < |start| ==> low <= start[k]
    ensures low - Sum(weights) < PlayFrom(start, weights, n).currents[i]
  {
    var raised := Shifted(start, -low);
    StartIsBelow(raised, weights);
    PlayStaysBelow(raised, weights, n);
    PlayShifts(start, weights, n, -low);
    assert PlayFrom(raised, weights, n).currents[i] == PlayFrom(start, weights, n).currents[i] - low;
  }

  // From currents between `low` and `high`, every current stays strictly above
  // low - W and at most W/2 + ... + W/m over `high`.
  lemma CurrentBoundFrom(start: seq<int>, weights: seq<int>, n: nat, i: nat, low: int, high: int)
    requires PositiveWeights(weights) && |start| == |weights| && i < |weights| && Between(start, low, high)
    ensures low - Sum(weights) < PlayFrom(start, weights, n).currents[i]
    ensures (PlayFrom(start, weights, n).currents[i] - high) as real <= HarmonicShare(Sum(weights), 1, |weights|)
  {
    CurrentAtMost(start, weights, n, i, high);
    CurrentAbove(start, weights, n, i, low);
  }

  // The lag bound with what the start adds to it: `had` is the owner's starting
  // current.
  ghost predicate WithinLagFrom(p: int, n: int, w: int, total: int, m: nat, had: int, low: int, high: int) {
    && p * total < n * w + total + (had - low)
    && (n * w - p * total - (high - had)) as real <= HarmonicShare(total, 1, m)
  }

  lemma LagFromCurrentFrom(c: int, p: int, n: int, w: int, total: int, m: nat, had: int, low: int, high: int)
    requires c == had + n * w - p * total
    requires low - total < c && (c - high) as real <= HarmonicShare(total, 1, m)
    ensures WithinLagFrom(p, n, w, total, m, had, low, high)
  {
    assert n * w - p * total - (high - had) == c - high;
  }

  // Main result: from any starting currents the lag exceeds the bound for zero
  // currents by no more than the start's own imbalance.
  lemma LagBoundFrom(start: seq<int>, weights: seq<int>, n: nat, i: nat, low: int, high: int)
    requires PositiveWeights(weights) && |start| == |weights| && i < |weights| && Between(start, low, high)
    ensures var picks := PlayFrom(start, weights, n).picks;
      WithinLagFrom(picks[i], n, weights[i], Sum(weights), |weights|, start[i], low, high)
  {
    CurrentBoundFrom(start, weights, n, i, low, high);
    Ledger(start, weights, n, i);
    var g := PlayFrom(start, weights, n);
    LagFromCurrentFrom(g.currents[i], g.picks[i], n, weights[i], Sum(weights), |weights|, start[i], low, high);
  }

  // ---- Exact proportion ----

  lemma {:induction false} AllZeroWhenSumIsZero(c: seq<int>, n: nat)
    requires n <= |c|
    requires forall i :: 0 <= i < n ==> 0 <= c[i]
    requires SumTo(c, n) == 0
    ensures forall i :: 0 <= i < n ==> c[i] == 0
  {
    SumToNonNegative(c, n);
  }

  lemma MultipleAbove(j: int, w: int, p: int, total: int)
    requires total > 0
    ensures (j * total) * w - p * total == (j * w - p) * total
    ensures (j * w - p) * total > -total ==> (j * w - p) * total >= 0
    ensures (j * w - p) * total == 0 ==> p == j * w
  {
    assert (j * total) * w == (j * w) * total;
    AboveMinusOne(j * w - p, total);
  }

  lemma AboveMinusOne(d: int, total: int)
    requires total > 0
    ensures d * total > -total ==> d * total >= 0
    ensures d * total == 0 ==> d == 0
  {
  }

  // Main result 2: after j * W turns everybody was picked exactly j times its
  // weight and all currents are back to zero.
  lemma ExactProportion(weights: seq<int>, j: nat)
    requires PositiveWeights(weights)
    ensures Sum(weights) > 0
    ensures var g := Play(weights, j * Sum(weights));
      forall i :: 0 <= i < |weights| ==> g.picks[i] == j * weights[i] && g.currents[i] == 0
  {
    TotalIsPositive(weights);
    var n := j * Sum(weights);
    var g := Play(weights, n);
    PlayIsBalanced(weights, n);
    forall i | 0 <= i < |weights|
      ensures 0 <= g.currents[i]
      ensures g.currents[i] == 0 ==> g.picks[i] == j * weights[i]
    {
      Ledger(Zeros(|weights|), weights, n, i);
      MultipleAbove(j, weights[i], g.picks[i], Sum(weights));
    }
    AllZeroWhenSumIsZero(g.currents, |weights|);
  }
}
