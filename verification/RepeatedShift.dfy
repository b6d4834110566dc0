// What repeated traffic shifts towards one provider achieve. Each either takes
// something from the others or is stalled, and a stall lasts.
//
// Proved: repeated shifts drain the others, and complete, exactly if they never
// meet a stalled vector of weights; for steps of one this is a condition on the
// weights at the start.
module RepeatedShift {
  import opened Broker
  import opened BrokerTable
  import opened Sums
  import TrafficShift

  // What a shift looks at: the others' weights, and the target's.
  datatype Line = Line(others: seq<int>, top: int)

  function LineOf(ps: seq<Provider>, target: nat): Line
    requires target < |ps|
  {
    Line(OtherWeights(ps, target), ps[target].weight)
  }

  function Gain(l: Line, step: nat): int {
    TrafficShift.Min(TrafficShift.Min(step, 100), Sum(l.others))
  }

  // A shift with something to take takes nothing: the last of the others has no
  // weight and every other part rounds to zero.
  predicate Stalled(l: Line, step: nat) {
    && Gain(l, step) > 0 && |l.others| > 0
    && l.others[|l.others| - 1] == 0
    && forall i :: 0 <= i < |l.others| - 1 ==> Gain(l, step) * l.others[i] < Sum(l.others)
  }

  // Two entries before the last carry weight.
  ghost predicate Spread(ws: seq<int>) {
    exists i: nat, j: nat :: i < j < |ws| - 1 && ws[i] > 0 && ws[j] > 0
  }

  // ---- One shift ----

  // What one shift does to the line.
  ghost predicate Follows(a: Line, b: Line, step: nat) {
    && 0 <= Sum(b.others) <= Sum(a.others) <= Sum(b.others) + Gain(a, step)
    && (Stalled(a, step) ==> b.others == a.others)
    && (step > 0 && Sum(a.others) > 0 && !Stalled(a, step) ==> Sum(b.others) < Sum(a.others))
    && b.top == TrafficShift.Min(a.top + Gain(a, step), 100)
    && (step == 1 ==> (Spread(b.others) <==> Spread(a.others)))
  }

  lemma OthersNotNegative(ps: seq<Provider>, target: nat)
    requires WeightsInRange(ps) && target < |ps|
    ensures OtherWeight(ps, target) >= 0
  {
    var ws := OtherWeights(ps, target);
    forall k | 0 <= k < |ws| ensures 0 <= ws[k] {
      assert ws[k] == ps[Other(k, target)].weight;
    }
    SumToNonNegative(ws, |ws|);
  }

  // The target gains the whole reduction, up to 100.
  lemma TargetGains(ps: seq<Provider>, target: nat, step: nat)
    requires WeightsInRange(ps) && target < |ps|
    ensures Shifted(ps, target, step)[target].weight ==
      TrafficShift.Min(ps[target].weight + Reduction(ps, target, step), 100)
  {
    OthersNotNegative(ps, target);
  }

  lemma {:induction false} ZeroShares(shares: seq<int>, n: nat)
    requires n <= |shares| && SumTo(shares, n) == 0 && forall i :: 0 <= i < n ==> 0 <= shares[i]
    ensures forall i :: 0 <= i < n ==> shares[i] == 0
  {
    SumToNonNegative(shares, n);
  }

  lemma OthersAfter(ps: seq<Provider>, target: nat, step: nat, k: nat)
    requires WeightsInRange(ps) && target < |ps| && k < |ps| - 1
    ensures OtherWeights(Shifted(ps, target, step), target)[k] ==
      OtherWeights(ps, target)[k] - SharesOf(ps, target, step)[k]
    ensures 0 <= SharesOf(ps, target, step)[k] <= OtherWeights(ps, target)[k]
  {
    SharesInRange(ps, target, step, k);
    ReductionIsSplittable(ps, target, step);
    ShiftedAt(ps, target, SharesOf(ps, target, step), Reduction(ps, target, step), Other(k, target));
    assert Slot(Other(k, target), target) == k;
  }

  lemma NothingLost(ps: seq<Provider>, target: nat, step: nat)
    requires WeightsInRange(ps) && target < |ps|
    requires OtherWeight(Shifted(ps, target, step), target) == OtherWeight(ps, target)
    ensures forall k :: 0 <= k < |ps| - 1 ==> SharesOf(ps, target, step)[k] == 0
  {
    var shares := SharesOf(ps, target, step);
    LostIsShares(ps, target, step);
    forall k | 0 <= k < |shares| ensures 0 <= shares[k] {
      SharesInRange(ps, target, step, k);
    }
    ZeroShares(shares, |shares|);
  }

  lemma StallKeepsOthers(ps: seq<Provider>, target: nat, step: nat)
    requires WeightsInRange(ps) && target < |ps| && Stalled(LineOf(ps, target), step)
    ensures OtherWeights(Shifted(ps, target, step), target) == OtherWeights(ps, target)
  {
    assert OtherWeight(Shifted(ps, target, step), target) == OtherWeight(ps, target) by {
      ShiftOutcome(ps, target, step);
    }
    NothingLost(ps, target, step);
    forall k | 0 <= k < |ps| - 1
      ensures OtherWeights(Shifted(ps, target, step), target)[k] == OtherWeights(ps, target)[k]
    {
      OthersAfter(ps, target, step, k);
    }
  }

  lemma {:induction false} ZeroSum(ws: seq<int>, n: nat)
    requires n <= |ws| && forall i :: 0 <= i < n ==> ws[i] == 0
    ensures SumTo(ws, n) == 0
  {
    if n > 0 { ZeroSum(ws, n - 1); }
  }

  lemma TwoParts(ws: seq<int>, i: nat, j: nat)
    requires i < |ws| && j < |ws| && i != j
    requires forall k :: 0 <= k < |ws| ==> 0 <= ws[k]
    ensures ws[i] + ws[j] <= Sum(ws)
  {
    SumToUpdate(ws, i, 0, |ws|);
    SumToNonNegative(ws[i := 0], |ws|);
    assert ws[i := 0][j] == ws[j];
  }

  lemma OnePart(ws: seq<int>, i: nat)
    requires i < |ws| && forall k :: 0 <= k < |ws| && k != i ==> ws[k] == 0
    ensures Sum(ws) == ws[i]
  {
    SumToUpdate(ws, i, 0, |ws|);
    ZeroSum(ws[i := 0], |ws|);
  }

  lemma SpreadOutweighs(ws: seq<int>, k: nat)
    requires Spread(ws) && k < |ws| - 1 && forall i :: 0 <= i < |ws| ==> 0 <= ws[i]
    ensures ws[k] < Sum(ws)
  {
    var i: nat, j: nat :| i < j < |ws| - 1 && ws[i] > 0 && ws[j] > 0;
    TwoParts(ws, k, if k == i then j else i);
  }

  // A step of one takes nothing from an entry before the last that is not the
  // whole weight.
  lemma RoundsToZero(ps: seq<Provider>, target: nat, k: nat)
    requires WeightsInRange(ps) && target < |ps| && k < |ps| - 2
    requires OtherWeights(ps, target)[k] < OtherWeight(ps, target)
    ensures SharesOf(ps, target, 1)[k] == 0
  {
    var ws := OtherWeights(ps, target);
    ReductionIsSplittable(ps, target, 1);
    assert ws[k] == ps[Other(k, target)].weight;
    assert Reduction(ps, target, 1) == 1;
    TrafficShift.CapsNeverBind(ws, 1, k + 1);
    TrafficShift.SharesPrefix(ws, 1, k + 1, |ws|);
    TrafficShift.FloorFacts(1, ws[k], Sum(ws));
  }

  lemma SpreadShifts(ps: seq<Provider>, target: nat)
    requires WeightsInRange(ps) && target < |ps|
    ensures Spread(OtherWeights(Shifted(ps, target, 1), target)) <==> Spread(OtherWeights(ps, target))
  {
    var ws, after := OtherWeights(ps, target), OtherWeights(Shifted(ps, target, 1), target);
    forall k | 0 <= k < |ws| ensures 0 <= after[k] <= ws[k] {
      OthersAfter(ps, target, 1, k);
    }
    if Spread(ws) {
      forall k | 0 <= k < |ws| - 1 ensures after[k] == ws[k] {
        SpreadOutweighs(ws, k);
        RoundsToZero(ps, target, k);
        OthersAfter(ps, target, 1, k);
      }
    }
  }

  lemma ShiftFollows(ps: seq<Provider>, target: nat, step: nat)
    requires WeightsInRange(ps) && target < |ps|
    ensures WeightsInRange(Shifted(ps, target, step))
    ensures Follows(LineOf(ps, target), LineOf(Shifted(ps, target, step), target), step)
  {
    ShiftOutcome(ps, target, step);
    ShiftKeepsRange(ps, target, step);
    OthersNotNegative(Shifted(ps, target, step), target);
    TargetGains(ps, target, step);
    if Stalled(LineOf(ps, target), step) { StallKeepsOthers(ps, target, step); }
    if step == 1 { SpreadShifts(ps, target); }
  }

  lemma CompleteIsDrained(ps: seq<Provider>, target: nat)
    requires WeightsInRange(ps) && target < |ps|
    ensures ShiftComplete(ps, target) <==> OtherWeight(ps, target) == 0 && ps[target].weight >= 100
  {
    var ws := OtherWeights(ps, target);
    forall k | 0 <= k < |ws| ensures ws[k] == ps[Other(k, target)].weight && 0 <= ws[k] {
    }
    if forall i :: 0 <= i < |ps| && i != target ==> ps[i].weight == 0 { ZeroSum(ws, |ws|); }
    if Sum(ws) == 0 {
      ZeroShares(ws, |ws|);
      forall i | 0 <= i < |ps| && i != target ensures ps[i].weight == 0 {
        assert ws[Slot(i, target)] == ps[i].weight;
      }
    }
  }

  // ---- Any number of shifts ----

  ghost predicate NextFollows(path: seq<Line>, step: nat, i: nat) {
    i + 1 < |path| && Follows(path[i], path[i + 1], step)
  }

  // Each line follows from the one before it by one shift.
  ghost predicate IsPath(path: seq<Line>, step: nat) {
    && |path| > 0 && Sum(path[0].others) >= 0 && path[0].top <= 100
    && forall i: nat {:trigger NextFollows(path, step, i)} :: i + 1 < |path| ==> NextFollows(path, step, i)
  }

  lemma {:induction false} FallsOrDrained(path: seq<Line>, step: nat, k: nat)
    requires IsPath(path, step) && k < |path| && step > 0
    requires forall j: nat :: j < k ==> !Stalled(path[j], step)
    ensures 0 <= Sum(path[k].others)
    ensures Sum(path[k].others) == 0 || Sum(path[k].others) <= Sum(path[0].others) - k
  {
    if k > 0 {
      FallsOrDrained(path, step, k - 1);
      assert NextFollows(path, step, k - 1);
    }
  }

  // What the others lose the target gains, up to 100.
  lemma {:induction false} TopKeepsUp(path: seq<Line>, step: nat, k: nat)
    requires IsPath(path, step) && k < |path|
    ensures path[k].top >= TrafficShift.Min(path[0].top + Sum(path[0].others) - Sum(path[k].others), 100)
    ensures 0 <= Sum(path[k].others) && path[k].top <= 100
  {
    if k > 0 {
      TopKeepsUp(path, step, k - 1);
      assert NextFollows(path, step, k - 1);
    }
  }

  lemma {:induction false} NeverRises(path: seq<Line>, step: nat, j: nat, k: nat)
    requires IsPath(path, step) && j <= k < |path|
    ensures Sum(path[k].others) <= Sum(path[j].others)
    ensures path[j].top >= 100 ==> path[k].top >= 100
    decreases k
  {
    if j < k {
      TopKeepsUp(path, step, k - 1);
      NeverRises(path, step, j, k - 1);
      assert NextFollows(path, step, k - 1);
    }
  }

  lemma SameOthersSameStall(a: Line, b: Line, step: nat)
    requires a.others == b.others
    ensures Gain(a, step) == Gain(b, step) && (Stalled(a, step) <==> Stalled(b, step))
  {
  }

  lemma {:induction false} StallStays(path: seq<Line>, step: nat, j: nat, k: nat)
    requires IsPath(path, step) && j <= k < |path| && Stalled(path[j], step) && path[j].top <= 100
    ensures path[k].others == path[j].others
    ensures path[k].top == TrafficShift.Min(path[j].top + (k - j) * Gain(path[j], step), 100)
    decreases k
  {
    if j < k {
      var gain := Gain(path[j], step);
      StallStays(path, step, j, k - 1);
      SameOthersSameStall(path[j], path[k - 1], step);
      assert NextFollows(path, step, k - 1);
      assert (k - j) * gain == (k - 1 - j) * gain + gain;
    }
  }

  lemma {:induction false} SpreadStays(path: seq<Line>, k: nat)
    requires IsPath(path, 1) && k < |path|
    ensures Spread(path[k].others) <==> Spread(path[0].others)
  {
    if k > 0 {
      SpreadStays(path, k - 1);
      assert NextFollows(path, 1, k - 1);
    }
  }

  // ---- The shifts of a service's providers ----

  ghost function LineAt(ps: seq<Provider>, target: nat, step: nat, k: nat): Line
    requires target < |ps|
  {
    LineOf(ShiftTimes(ps, target, step, k), target)
  }

  ghost function PathTo(ps: seq<Provider>, target: nat, step: nat, n: nat): (path: seq<Line>)
    requires target < |ps|
    ensures |path| == n + 1
    ensures forall k: nat :: k <= n ==> path[k] == LineAt(ps, target, step, k)
  {
    seq(n + 1, k requires k >= 0 => LineAt(ps, target, step, k))
  }

  lemma {:induction false} TimesInRange(ps: seq<Provider>, target: nat, step: nat, k: nat)
    requires WeightsInRange(ps) && target < |ps|
    ensures WeightsInRange(ShiftTimes(ps, target, step, k))
  {
    if k > 0 {
      TimesInRange(ps, target, step, k - 1);
      ShiftFollows(ShiftTimes(ps, target, step, k - 1), target, step);
    }
  }

  lemma NextLineFollows(ps: seq<Provider>, target: nat, step: nat, k: nat)
    requires WeightsInRange(ps) && target < |ps|
    ensures Follows(LineAt(ps, target, step, k), LineAt(ps, target, step, k + 1), step)
  {
    TimesInRange(ps, target, step, k);
    ShiftFollows(ShiftTimes(ps, target, step, k), target, step);
  }

  lemma ShiftsMakePath(ps: seq<Provider>, target: nat, step: nat, n: nat)
    requires WeightsInRange(ps) && target < |ps|
    ensures IsPath(PathTo(ps, target, step, n), step)
  {
    var path := PathTo(ps, target, step, n);
    OthersNotNegative(ps, target);
    forall i: nat | i + 1 < |path| ensures NextFollows(path, step, i) {
      NextLineFollows(ps, target, step, i);
    }
  }

  ghost predicate StalledAt(ps: seq<Provider>, target: nat, step: nat, k: nat)
    requires target < |ps|
  {
    Stalled(LineAt(ps, target, step, k), step)
  }

  ghost predicate DrainedAt(ps: seq<Provider>, target: nat, step: nat, k: nat)
    requires target < |ps|
  {
    OtherWeight(ShiftTimes(ps, target, step, k), target) == 0
  }

  ghost predicate CompleteAt(ps: seq<Provider>, target: nat, step: nat, k: nat)
    requires target < |ps|
  {
    ShiftComplete(ShiftTimes(ps, target, step, k), target)
  }

  // Main result: once stalled, shifts take nothing from the others ever again,
  // while the target climbs by the same amount each time until it is at 100; no
  // shift reports completion.
  lemma StallLastsForever(ps: seq<Provider>, target: nat, step: nat, k: nat)
    requires WeightsInRange(ps) && target < |ps| && StalledAt(ps, target, step, 0)
    ensures var first, now := LineOf(ps, target), LineAt(ps, target, step, k);
      && now.others == first.others
      && now.top == TrafficShift.Min(first.top + k * Gain(first, step), 100)
    ensures !CompleteAt(ps, target, step, k)
  {
    ShiftsMakePath(ps, target, step, k);
    StallStays(PathTo(ps, target, step, k), step, 0, k);
    TimesInRange(ps, target, step, k);
    CompleteIsDrained(ShiftTimes(ps, target, step, k), target);
  }

  lemma StallNeverDrains(ps: seq<Provider>, target: nat, step: nat, j: nat, k: nat)
    requires WeightsInRange(ps) && target < |ps| && StalledAt(ps, target, step, j)
    ensures !DrainedAt(ps, target, step, k)
  {
    var n := if j <= k then k else j;
    var path := PathTo(ps, target, step, n);
    ShiftsMakePath(ps, target, step, n);
    if j <= k { StallStays(path, step, j, k); } else { NeverRises(path, step, k, j); }
  }

  lemma UnstalledDrains(ps: seq<Provider>, target: nat, step: nat) returns (k: nat)
    requires WeightsInRange(ps) && target < |ps| && step > 0
    requires forall j: nat :: !StalledAt(ps, target, step, j)
    ensures DrainedAt(ps, target, step, k)
  {
    OthersNotNegative(ps, target);
    k := OtherWeight(ps, target);
    var path := PathTo(ps, target, step, k);
    ShiftsMakePath(ps, target, step, k);
    forall j: nat | j < k ensures !Stalled(path[j], step) {
      assert !StalledAt(ps, target, step, j);
    }
    FallsOrDrained(path, step, k);
  }

  // Main result: repeated shifts drain the others if and only if they never meet a
  // stalled vector of weights.
  lemma DrainsExactly(ps: seq<Provider>, target: nat, step: nat)
    requires WeightsInRange(ps) && target < |ps| && step > 0
    ensures (exists k: nat :: DrainedAt(ps, target, step, k)) <==> (forall j: nat :: !StalledAt(ps, target, step, j))
  {
    if forall j: nat :: !StalledAt(ps, target, step, j) {
      var k := UnstalledDrains(ps, target, step);
    } else {
      var j: nat :| StalledAt(ps, target, step, j);
      forall k: nat ensures !DrainedAt(ps, target, step, k) {
        StallNeverDrains(ps, target, step, j, k);
      }
    }
  }

  ghost predicate FullAt(ps: seq<Provider>, target: nat, step: nat, k: nat)
    requires target < |ps|
  {
    LineAt(ps, target, step, k).top >= 100
  }

  lemma CompleteIsDrainedAndFull(ps: seq<Provider>, target: nat, step: nat, k: nat)
    requires WeightsInRange(ps) && target < |ps|
    ensures CompleteAt(ps, target, step, k) <==> DrainedAt(ps, target, step, k) && FullAt(ps, target, step, k)
  {
    TimesInRange(ps, target, step, k);
    CompleteIsDrained(ShiftTimes(ps, target, step, k), target);
  }

  lemma DrainedAndFullStay(ps: seq<Provider>, target: nat, step: nat, j: nat, k: nat)
    requires WeightsInRange(ps) && target < |ps| && j <= k
    ensures DrainedAt(ps, target, step, j) ==> DrainedAt(ps, target, step, k)
    ensures FullAt(ps, target, step, j) ==> FullAt(ps, target, step, k)
  {
    var path := PathTo(ps, target, step, k);
    ShiftsMakePath(ps, target, step, k);
    NeverRises(path, step, j, k);
    TopKeepsUp(path, step, k);
  }

  // Main result: repeated shifts complete if and only if they never meet a stalled
  // vector of weights and bring the target to 100.
  lemma CompletesExactly(ps: seq<Provider>, target: nat, step: nat)
    requires WeightsInRange(ps) && target < |ps| && step > 0
    ensures (exists k: nat :: CompleteAt(ps, target, step, k)) <==>
      (forall j: nat :: !StalledAt(ps, target, step, j)) && (exists k: nat :: FullAt(ps, target, step, k))
  {
    DrainsExactly(ps, target, step);
    if k: nat :| CompleteAt(ps, target, step, k) {
      CompleteIsDrainedAndFull(ps, target, step, k);
    }
    if j: nat, k: nat :| DrainedAt(ps, target, step, j) && FullAt(ps, target, step, k) {
      var n := if j <= k then k else j;
      DrainedAndFullStay(ps, target, step, j, n);
      DrainedAndFullStay(ps, target, step, k, n);
      CompleteIsDrainedAndFull(ps, target, step, n);
    }
  }

  // With weights of at least 100 in all, draining the others fills the target.
  lemma DrainedIsFull(ps: seq<Provider>, target: nat, step: nat, k: nat)
    requires WeightsInRange(ps) && target < |ps| && ps[target].weight + OtherWeight(ps, target) >= 100
    requires DrainedAt(ps, target, step, k)
    ensures FullAt(ps, target, step, k)
  {
    ShiftsMakePath(ps, target, step, k);
    TopKeepsUp(PathTo(ps, target, step, k), step, k);
  }

  // Main result: with weights of at least 100 in all, never being stalled is enough.
  lemma CompletesUnlessStalled(ps: seq<Provider>, target: nat, step: nat)
    requires WeightsInRange(ps) && target < |ps| && step > 0
    requires ps[target].weight + OtherWeight(ps, target) >= 100
    ensures (exists k: nat :: CompleteAt(ps, target, step, k)) <==> (forall j: nat :: !StalledAt(ps, target, step, j))
  {
    CompletesExactly(ps, target, step);
    DrainsExactly(ps, target, step);
    if k: nat :| DrainedAt(ps, target, step, k) {
      DrainedIsFull(ps, target, step, k);
    }
  }

  // ---- Steps of one ----

  lemma SpreadLasts(ps: seq<Provider>, target: nat, k: nat)
    requires WeightsInRange(ps) && target < |ps|
    ensures Spread(LineAt(ps, target, 1, k).others) <==> Spread(OtherWeights(ps, target))
  {
    ShiftsMakePath(ps, target, 1, k);
    SpreadStays(PathTo(ps, target, 1, k), k);
  }

  lemma StalledIsSpread(ws: seq<int>, top: int)
    requires Stalled(Line(ws, top), 1) && forall i :: 0 <= i < |ws| ==> 0 <= ws[i]
    ensures Spread(ws)
  {
    if forall i :: 0 <= i < |ws| - 1 ==> ws[i] == 0 {
      ZeroSum(ws, |ws|);
    } else {
      var i: nat :| i < |ws| - 1 && ws[i] != 0;
      if forall j :: 0 <= j < |ws| && j != i ==> ws[j] == 0 {
        OnePart(ws, i);
      } else {
        var j: nat :| j < |ws| && j != i && ws[j] != 0;
        var first, second := if i < j then i else j, if i < j then j else i;
        assert first < second < |ws| - 1 && ws[first] > 0 && ws[second] > 0;
      }
    }
  }

  lemma OthersInRange(ps: seq<Provider>, target: nat)
    requires WeightsInRange(ps) && target < |ps|
    ensures forall i :: 0 <= i < |ps| - 1 ==> 0 <= OtherWeights(ps, target)[i]
  {
    forall i | 0 <= i < |ps| - 1 ensures 0 <= OtherWeights(ps, target)[i] {
      assert OtherWeights(ps, target)[i] == ps[Other(i, target)].weight;
    }
  }

  lemma SpreadNeverCompletes(ps: seq<Provider>, target: nat, k: nat)
    requires WeightsInRange(ps) && target < |ps| && Spread(OtherWeights(ps, target))
    ensures !CompleteAt(ps, target, 1, k)
  {
    SpreadLasts(ps, target, k);
    TimesInRange(ps, target, 1, k);
    OthersInRange(ShiftTimes(ps, target, 1, k), target);
    SpreadOutweighs(LineAt(ps, target, 1, k).others, 0);
    CompleteIsDrained(ShiftTimes(ps, target, 1, k), target);
  }

  // Main result: shifts by one, with weights of at least 100 in all, complete if
  // and only if at most one provider carries weight among the others before the
  // last.
  lemma StepsOfOneComplete(ps: seq<Provider>, target: nat)
    requires WeightsInRange(ps) && target < |ps| && ps[target].weight + OtherWeight(ps, target) >= 100
    ensures (exists k: nat :: CompleteAt(ps, target, 1, k)) <==> !Spread(OtherWeights(ps, target))
  {
    CompletesUnlessStalled(ps, target, 1);
    if Spread(OtherWeights(ps, target)) {
      forall k: nat ensures !CompleteAt(ps, target, 1, k) {
        SpreadNeverCompletes(ps, target, k);
      }
    } else {
      forall j: nat ensures !StalledAt(ps, target, 1, j) {
        SpreadLasts(ps, target, j);
        TimesInRange(ps, target, 1, j);
        if StalledAt(ps, target, 1, j) {
          OthersInRange(ShiftTimes(ps, target, 1, j), target);
          StalledIsSpread(LineAt(ps, target, 1, j).others, LineAt(ps, target, 1, j).top);
        }
      }
    }
  }
}
