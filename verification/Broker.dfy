// Choosing a provider of one service: the routable providers, the two policies,
// and the fair share that round robin gives over any stretch of traffic.
module Broker {
  import opened Wrappers
  import opened Sums
  import opened SmoothRoundRobin

  datatype Policy = RoundRobin | LeastLoaded

  datatype Provider = Provider(id: Name, weight: int, draining: bool, inFlight: int, dispatched: int)

  datatype ServiceBroker = ServiceBroker(policy: Policy, providers: seq<Provider>, current: map<Name, int>)

  predicate Routable(p: Provider) {
    !p.draining && p.weight > 0
  }

  ghost predicate DistinctIds(ps: seq<Provider>) {
    forall i, j :: 0 <= i < j < |ps| ==> ps[i].id != ps[j].id
  }

  ghost predicate HasId(ps: seq<Provider>, id: Name) {
    exists i :: 0 <= i < |ps| && ps[i].id == id
  }

  // The first position of `id`, or |ps|.
  function IndexOf(ps: seq<Provider>, id: Name, from: nat := 0): (at: nat)
    requires from <= |ps|
    ensures from <= at <= |ps|
    ensures at < |ps| ==> ps[at].id == id
    ensures forall i :: from <= i < at ==> ps[i].id != id
    decreases |ps| - from
  {
    if from == |ps| || ps[from].id == id then from else IndexOf(ps, id, from + 1)
  }

  // ---- Selection ----

  // The positions of the routable providers among the first n.
  function RoutableTo(ps: seq<Provider>, n: nat): (field: seq<nat>)
    requires n <= |ps|
    ensures forall k :: 0 <= k < |field| ==> field[k] < n && Routable(ps[field[k]])
  {
    if n == 0 then [] else
      RoutableTo(ps, n - 1) + (if Routable(ps[n - 1]) then [n - 1] else [])
  }

  ghost predicate Increasing(field: seq<nat>) {
    forall j, k :: 0 <= j < k < |field| ==> field[j] < field[k]
  }

  lemma {:induction false} RoutableOrder(ps: seq<Provider>, n: nat)
    requires n <= |ps|
    ensures Increasing(RoutableTo(ps, n))
    ensures forall i :: 0 <= i < n && Routable(ps[i]) ==> i in RoutableTo(ps, n)
  {
    if n > 0 { RoutableOrder(ps, n - 1); }
  }

  function Field(ps: seq<Provider>): (field: seq<nat>) {
    RoutableTo(ps, |ps|)
  }

  predicate InField(ps: seq<Provider>, field: seq<nat>) {
    forall k :: 0 <= k < |field| ==> field[k] < |ps|
  }

  function Cur(current: map<Name, int>, id: Name): int {
    if id in current then current[id] else 0
  }

  function WeightsOf(ps: seq<Provider>, field: seq<nat>): (ws: seq<int>)
    requires InField(ps, field)
  {
    seq(|field|, k requires 0 <= k < |field| => ps[field[k]].weight)
  }

  function CurrentsOf(ps: seq<Provider>, field: seq<nat>, current: map<Name, int>): (cs: seq<int>)
    requires InField(ps, field)
  {
    seq(|field|, k requires 0 <= k < |field| => Cur(current, ps[field[k]].id))
  }

  // The table after the first k routable providers earned their weight.
  function RaiseTo(ps: seq<Provider>, field: seq<nat>, current: map<Name, int>, k: nat): map<Name, int>
    requires InField(ps, field) && k <= |field|
  {
    if k == 0 then current else
      var m := RaiseTo(ps, field, current, k - 1);
      var p := ps[field[k - 1]];
      m[p.id := Cur(m, p.id) + p.weight]
  }

  function IdlenessOf(ps: seq<Provider>, field: seq<nat>): (s: seq<int>)
    requires InField(ps, field)
  {
    seq(|field|, k requires 0 <= k < |field| => -ps[field[k]].inFlight)
  }

  datatype Choice = Choice(index: nat, current: map<Name, int>)

  // A round-robin turn: everybody earns, the first largest wins and pays W.
  function TurnOn(ps: seq<Provider>, field: seq<nat>, current: map<Name, int>): Choice
    requires InField(ps, field) && field != []
  {
    var ws := WeightsOf(ps, field);
    var winner := field[Winner(CurrentsOf(ps, field, current), ws)];
    var raised, id := RaiseTo(ps, field, current, |field|), ps[winner].id;
    Choice(winner, raised[id := Cur(raised, id) - Sum(ws)])
  }

  function Select(b: ServiceBroker): (c: Option<Choice>)
    ensures c.Some? ==> c.value.index < |b.providers| && Routable(b.providers[c.value.index])
  {
    var ps, field := b.providers, Field(b.providers);
    if field == [] then None else
      match b.policy
      case RoundRobin =>
        Some(TurnOn(ps, field, b.current))
      case LeastLoaded =>
        Some(Choice(field[FirstMax(IdlenessOf(ps, field), |field|)], b.current))
  }

  function Dispatched(ps: seq<Provider>, i: nat): (r: seq<Provider>)
    requires i < |ps|
  {
    ps[i := ps[i].(inFlight := ps[i].inFlight + 1, dispatched := ps[i].dispatched + 1)]
  }

  function Returned(ps: seq<Provider>, id: Name): (r: seq<Provider>)
  {
    var i := IndexOf(ps, id);
    if i == |ps| then ps else ps[i := ps[i].(inFlight := ps[i].inFlight - 1)]
  }

  function RouteOn(b: ServiceBroker): (r: ServiceBroker)
    requires Select(b).Some?
  {
    var c := Select(b).value;
    b.(providers := Dispatched(b.providers, c.index), current := c.current)
  }

  // ---- Selection keeps the currents' sum and is one turn of the game ----

  lemma {:induction false} RaiseSum(ps: seq<Provider>, field: seq<nat>, current: map<Name, int>, k: nat)
    requires InField(ps, field) && k <= |field|
    ensures MapSum(RaiseTo(ps, field, current, k)) == MapSum(current) + SumTo(WeightsOf(ps, field), k)
  {
    if k > 0 {
      RaiseSum(ps, field, current, k - 1);
      var m, p := RaiseTo(ps, field, current, k - 1), ps[field[k - 1]];
      MapSumUpdate(m, p.id, Cur(m, p.id) + p.weight);
    }
  }

  ghost predicate DistinctField(ps: seq<Provider>, field: seq<nat>) {
    && InField(ps, field)
    && forall j, k :: 0 <= j < k < |field| ==> ps[field[j]].id != ps[field[k]].id
  }

  lemma FieldIsDistinct(ps: seq<Provider>)
    requires DistinctIds(ps)
    ensures DistinctField(ps, Field(ps)) && Increasing(Field(ps))
  {
    RoutableOrder(ps, |ps|);
  }

  lemma {:induction false} RaisedAt(ps: seq<Provider>, field: seq<nat>, current: map<Name, int>, k: nat, j: nat)
    requires DistinctField(ps, field) && k <= |field| && j < |field|
    ensures Cur(RaiseTo(ps, field, current, k), ps[field[j]].id)
      == Cur(current, ps[field[j]].id) + (if j < k then ps[field[j]].weight else 0)
  {
    if k > 0 {
      RaisedAt(ps, field, current, k - 1, j);
    }
  }

  lemma TurnKeepsSum(ps: seq<Provider>, field: seq<nat>, current: map<Name, int>)
    requires InField(ps, field) && field != []
    ensures MapSum(TurnOn(ps, field, current).current) == MapSum(current)
  {
    var ws := WeightsOf(ps, field);
    var j := Winner(CurrentsOf(ps, field, current), ws);
    var raised, id := RaiseTo(ps, field, current, |field|), ps[field[j]].id;
    RaiseSum(ps, field, current, |field|);
    RaiseHasId(ps, field, current, |field|, j);
    MapSumUpdate(raised, id, Cur(raised, id) - Sum(ws));
  }

  lemma SelectKeepsSum(b: ServiceBroker)
    requires Select(b).Some?
    ensures MapSum(Select(b).value.current) == MapSum(b.current)
  {
    if b.policy.RoundRobin? {
      TurnKeepsSum(b.providers, Field(b.providers), b.current);
    }
  }

  lemma {:induction false} RaiseHasId(ps: seq<Provider>, field: seq<nat>, current: map<Name, int>, k: nat, j: nat)
    requires InField(ps, field) && j < k <= |field|
    ensures ps[field[j]].id in RaiseTo(ps, field, current, k)
  {
    if j < k - 1 { RaiseHasId(ps, field, current, k - 1, j); }
  }

  // One round-robin selection is one turn of the weighted game on the routable
  // providers.
  lemma SelectIsTurn(ps: seq<Provider>, field: seq<nat>, current: map<Name, int>)
    requires DistinctField(ps, field) && field != []
    ensures var cs, ws := CurrentsOf(ps, field, current), WeightsOf(ps, field);
      && TurnOn(ps, field, current).index == field[Winner(cs, ws)]
      && CurrentsOf(ps, field, TurnOn(ps, field, current).current) == Turn(cs, ws)
  {
    var cs, ws := CurrentsOf(ps, field, current), WeightsOf(ps, field);
    var after := TurnOn(ps, field, current).current;
    forall k | 0 <= k < |field| ensures CurrentsOf(ps, field, after)[k] == Turn(cs, ws)[k] {
      TurnAt(ps, field, current, k);
    }
  }

  lemma TurnAt(ps: seq<Provider>, field: seq<nat>, current: map<Name, int>, k: nat)
    requires DistinctField(ps, field) && k < |field|
    ensures var cs, ws := CurrentsOf(ps, field, current), WeightsOf(ps, field);
      Cur(TurnOn(ps, field, current).current, ps[field[k]].id) == Turn(cs, ws)[k]
  {
    var cs, ws := CurrentsOf(ps, field, current), WeightsOf(ps, field);
    RaisedAt(ps, field, current, |field|, k);
    assert Raised(cs, ws)[k] == cs[k] + ws[k];
  }

  // ---- What the least-loaded policy chooses ----

  // Routable, with no more dispatches in flight than any routable provider and
  // fewer than every routable one before it.
  ghost predicate FirstLeastLoaded(ps: seq<Provider>, i: nat) {
    && i < |ps| && !ps[i].draining && ps[i].weight > 0
    && forall j :: 0 <= j < |ps| && !ps[j].draining && ps[j].weight > 0 ==>
      ps[i].inFlight <= ps[j].inFlight && (j < i ==> ps[i].inFlight < ps[j].inFlight)
  }

  // Main result: a least-loaded selection takes the first of the routable
  // providers with the fewest dispatches in flight and leaves the currents alone.
  lemma LeastLoadedSelects(b: ServiceBroker)
    requires b.policy.LeastLoaded? && Select(b).Some?
    ensures FirstLeastLoaded(b.providers, Select(b).value.index) && Select(b).value.current == b.current
  {
    var ps, field := b.providers, Field(b.providers);
    var idleness := IdlenessOf(ps, field);
    var best := FirstMax(idleness, |field|);
    RoutableOrder(ps, |ps|);
    forall j | 0 <= j < |ps| && Routable(ps[j])
      ensures ps[field[best]].inFlight <= ps[j].inFlight
      ensures j < field[best] ==> ps[field[best]].inFlight < ps[j].inFlight
    {
      var k :| 0 <= k < |field| && field[k] == j;
      assert idleness[k] == -ps[j].inFlight && idleness[best] == -ps[field[best]].inFlight;
    }
  }

  ghost predicate AnyRoutable(ps: seq<Provider>) {
    exists i :: 0 <= i < |ps| && !ps[i].draining && ps[i].weight > 0
  }

  // Nothing is chosen only if nothing is routable, under either policy.
  lemma SelectsIfAnyRoutable(b: ServiceBroker)
    ensures Select(b).Some? <==> AnyRoutable(b.providers)
  {
    RoutableOrder(b.providers, |b.providers|);
    var field := Field(b.providers);
    if field != [] { assert Routable(b.providers[field[0]]); }
    if i :| 0 <= i < |b.providers| && Routable(b.providers[i]) { assert i in field; }
  }

  // ---- Fair share over a stretch of traffic ----

  // Between two changes of the providers a service sees only routes and drops.
  datatype Traffic = Routed | Dropped(id: Name)

  function Serve(b: ServiceBroker, t: Traffic): ServiceBroker {
    match t
    case Routed => if Select(b).None? then b else RouteOn(b)
    case Dropped(id) => b.(providers := Returned(b.providers, id))
  }

  // The broker after the first n steps.
  function ServeTo(b: ServiceBroker, ts: seq<Traffic>, n: nat): ServiceBroker
    requires n <= |ts|
  {
    if n == 0 then b else Serve(ServeTo(b, ts, n - 1), ts[n - 1])
  }

  function ServeAll(b: ServiceBroker, ts: seq<Traffic>): ServiceBroker {
    ServeTo(b, ts, |ts|)
  }

  function RoutesTo(ts: seq<Traffic>, n: nat): nat
    requires n <= |ts|
  {
    if n == 0 then 0 else RoutesTo(ts, n - 1) + (if ts[n - 1].Routed? then 1 else 0)
  }

  function RouteCount(ts: seq<Traffic>): nat {
    RoutesTo(ts, |ts|)
  }

  ghost predicate SameShape(ps: seq<Provider>, qs: seq<Provider>) {
    && |ps| == |qs|
    && forall i :: 0 <= i < |ps| ==>
      ps[i].id == qs[i].id && ps[i].weight == qs[i].weight && ps[i].draining == qs[i].draining
  }

  lemma {:induction false} SameField(ps: seq<Provider>, qs: seq<Provider>, n: nat)
    requires SameShape(ps, qs) && n <= |ps|
    ensures RoutableTo(ps, n) == RoutableTo(qs, n)
  {
    if n > 0 { SameField(ps, qs, n - 1); }
  }

  // Round robin has something to route.
  ghost predicate Routing(b: ServiceBroker) {
    b.policy.RoundRobin? && DistinctIds(b.providers) && Field(b.providers) != []
  }

  ghost function StartOf(b: ServiceBroker): seq<int> {
    CurrentsOf(b.providers, Field(b.providers), b.current)
  }

  ghost predicate FreshStart(b: ServiceBroker) {
    Routing(b) && forall k :: 0 <= k < |StartOf(b)| ==> StartOf(b)[k] == 0
  }

  // The growth of the dispatch counters of the given positions.
  ghost function Growths(ps: seq<Provider>, qs: seq<Provider>, field: seq<nat>): (g: seq<int>)
    requires |ps| == |qs| && InField(ps, field)
  {
    seq(|field|, k requires 0 <= k < |field| => qs[field[k]].dispatched - ps[field[k]].dispatched)
  }

  ghost function GameOf(b: ServiceBroker, c: ServiceBroker): Game
    requires SameShape(b.providers, c.providers)
  {
    var field := Field(b.providers);
    Game(CurrentsOf(b.providers, field, c.current), Growths(b.providers, c.providers, field))
  }

  ghost predicate FollowsPlay(b: ServiceBroker, c: ServiceBroker, n: nat) {
    && Field(b.providers) != []
    && c.policy == b.policy
    && SameShape(b.providers, c.providers)
    && GameOf(b, c) == PlayFrom(StartOf(b), WeightsOf(b.providers, Field(b.providers)), n)
  }

  lemma CountersFollow(ps: seq<Provider>, qs: seq<Provider>, field: seq<nat>, w: nat)
    requires SameShape(ps, qs) && InField(ps, field) && w < |field|
    requires Increasing(field)
    ensures SameShape(ps, Dispatched(qs, field[w]))
    ensures var g := Growths(ps, qs, field);
      Growths(ps, Dispatched(qs, field[w]), field) == g[w := g[w] + 1]
  {
    var g := Growths(ps, qs, field);
    forall k | 0 <= k < |field|
      ensures Growths(ps, Dispatched(qs, field[w]), field)[k] == g[w := g[w] + 1][k]
    {
      if k < w { assert field[k] < field[w]; } else if w < k { assert field[w] < field[k]; }
    }
  }

  lemma SameViews(ps: seq<Provider>, qs: seq<Provider>, field: seq<nat>, current: map<Name, int>)
    requires SameShape(ps, qs) && InField(ps, field)
    ensures WeightsOf(qs, field) == WeightsOf(ps, field)
    ensures CurrentsOf(qs, field, current) == CurrentsOf(ps, field, current)
  {
  }

  lemma SelectsTurn(b: ServiceBroker, c: ServiceBroker)
    requires Routing(b) && SameShape(b.providers, c.providers) && c.policy == b.policy
    ensures Field(c.providers) == Field(b.providers)
    ensures Select(c) == Some(TurnOn(c.providers, Field(b.providers), c.current))
  {
    SameField(b.providers, c.providers, |b.providers|);
  }

  // A turn taken on the table `qs`, of the same shape as `ps`, in terms of `ps`.
  lemma TurnSeenFrom(ps: seq<Provider>, qs: seq<Provider>, field: seq<nat>, current: map<Name, int>)
    requires SameShape(ps, qs) && DistinctField(ps, field) && field != []
    ensures var cs, ws := CurrentsOf(ps, field, current), WeightsOf(ps, field);
      && TurnOn(qs, field, current).index == field[Winner(cs, ws)]
      && CurrentsOf(ps, field, TurnOn(qs, field, current).current) == Turn(cs, ws)
  {
    SameViews(ps, qs, field, current);
    SelectIsTurn(qs, field, current);
    SameViews(ps, qs, field, TurnOn(qs, field, current).current);
  }

  // Routing with `c`, of the same shape as the start `b`, in terms of `b`.
  lemma RouteIsTurn(b: ServiceBroker, c: ServiceBroker)
    requires Routing(b) && SameShape(b.providers, c.providers) && c.policy == b.policy
    ensures Select(c).Some? && SameShape(b.providers, RouteOn(c).providers)
    ensures var ws, g := WeightsOf(b.providers, Field(b.providers)), GameOf(b, c);
      var w := Winner(g.currents, ws);
      GameOf(b, RouteOn(c)) == Game(Turn(g.currents, ws), g.picks[w := g.picks[w] + 1])
  {
    var ps, qs, field := b.providers, c.providers, Field(b.providers);
    SelectsTurn(b, c);
    FieldIsDistinct(ps);
    TurnSeenFrom(ps, qs, field, c.current);
    CountersFollow(ps, qs, field, Winner(CurrentsOf(ps, field, c.current), WeightsOf(ps, field)));
  }

  lemma RouteFollowsPlay(b: ServiceBroker, c: ServiceBroker, n: nat)
    requires Routing(b) && FollowsPlay(b, c, n)
    ensures Select(c).Some? && FollowsPlay(b, RouteOn(c), n + 1)
  {
    RouteIsTurn(b, c);
  }

  lemma StartFollowsPlay(b: ServiceBroker)
    requires Routing(b)
    ensures FollowsPlay(b, b, 0)
  {
    var field := Field(b.providers);
    assert Growths(b.providers, b.providers, field) == Zeros(|field|);
  }

  lemma DropFollowsPlay(b: ServiceBroker, c: ServiceBroker, n: nat, id: Name)
    requires FollowsPlay(b, c, n)
    ensures FollowsPlay(b, Serve(c, Dropped(id)), n)
  {
    var ps, qs, rs, field := b.providers, c.providers, Returned(c.providers, id), Field(b.providers);
    assert SameShape(ps, rs);
    assert Growths(ps, rs, field) == Growths(ps, qs, field);
  }

  lemma ServeStepFollows(b: ServiceBroker, c: ServiceBroker, n: nat, t: Traffic)
    requires Routing(b) && FollowsPlay(b, c, n)
    ensures FollowsPlay(b, Serve(c, t), n + (if t.Routed? then 1 else 0))
  {
    match t
    case Routed => RouteFollowsPlay(b, c, n);
    case Dropped(id) => DropFollowsPlay(b, c, n, id);
  }

  lemma NextFollowsPlay(b: ServiceBroker, c: ServiceBroker, d: ServiceBroker, n: nat, m: nat, t: Traffic)
    requires Routing(b) && FollowsPlay(b, c, n)
    requires d == Serve(c, t) && m == n + (if t.Routed? then 1 else 0)
    ensures FollowsPlay(b, d, m)
  {
    ServeStepFollows(b, c, n, t);
  }

  lemma {:induction false} ServeFollowsPlay(b: ServiceBroker, ts: seq<Traffic>, n: nat)
    requires Routing(b) && n <= |ts|
    ensures FollowsPlay(b, ServeTo(b, ts, n), RoutesTo(ts, n))
  {
    if n == 0 {
      StartFollowsPlay(b);
    } else {
      ServeFollowsPlay(b, ts, n - 1);
      NextFollowsPlay(b, ServeTo(b, ts, n - 1), ServeTo(b, ts, n), RoutesTo(ts, n - 1), RoutesTo(ts, n), ts[n - 1]);
    }
  }

  lemma FieldWeights(ps: seq<Provider>)
    requires Field(ps) != []
    ensures PositiveWeights(WeightsOf(ps, Field(ps)))
  {
  }

  lemma FreshStartIsZero(b: ServiceBroker)
    requires FreshStart(b)
    ensures StartOf(b) == Zeros(|Field(b.providers)|)
  {
  }

  // Main result: over any stretch of routes and lease drops, from whatever
  // currents earlier providers left, every routable provider stays within the lag
  // bound for zero currents plus the imbalance of the start.
  lemma FairShareFrom(b: ServiceBroker, ts: seq<Traffic>, k: nat, low: int, high: int)
    requires Routing(b) && k < |Field(b.providers)| && Between(StartOf(b), low, high)
    ensures SameShape(b.providers, ServeAll(b, ts).providers)
    ensures var ws, had := WeightsOf(b.providers, Field(b.providers)), StartOf(b)[k];
      WithinLagFrom(GameOf(b, ServeAll(b, ts)).picks[k], RouteCount(ts), ws[k], Sum(ws), |ws|, had, low, high)
  {
    ServeFollowsPlay(b, ts, |ts|);
    FieldWeights(b.providers);
    LagBoundFrom(StartOf(b), WeightsOf(b.providers, Field(b.providers)), RouteCount(ts), k, low, high);
  }

  // Main result: over any stretch of routes and lease drops that starts from
  // zero currents, every routable provider stays less than one turn ahead of
  // its share and at most 1/2 + ... + 1/m turns behind it.
  lemma FairShare(b: ServiceBroker, ts: seq<Traffic>, k: nat)
    requires FreshStart(b) && k < |Field(b.providers)|
    ensures SameShape(b.providers, ServeAll(b, ts).providers)
    ensures var ws := WeightsOf(b.providers, Field(b.providers));
      WithinLag(GameOf(b, ServeAll(b, ts)).picks[k], RouteCount(ts), ws[k], Sum(ws), |ws|)
  {
    ServeFollowsPlay(b, ts, |ts|);
    FieldWeights(b.providers);
    FreshStartIsZero(b);
    LagBound(WeightsOf(b.providers, Field(b.providers)), RouteCount(ts), k);
  }

  // Main result: after j times the total weight of routes, whatever leases were
  // dropped in between, every routable provider got exactly j times its weight
  // and all currents are back to zero, so the same stretch can start again.
  lemma ExactShare(b: ServiceBroker, ts: seq<Traffic>, j: nat, k: nat)
    requires FreshStart(b) && k < |Field(b.providers)|
    requires RouteCount(ts) == j * Sum(WeightsOf(b.providers, Field(b.providers)))
    ensures SameShape(b.providers, ServeAll(b, ts).providers)
    ensures var i, c := Field(b.providers)[k], ServeAll(b, ts);
      && c.providers[i].dispatched - b.providers[i].dispatched == j * b.providers[i].weight
      && Cur(c.current, b.providers[i].id) == 0
  {
    var ws := WeightsOf(b.providers, Field(b.providers));
    ServeFollowsPlay(b, ts, |ts|);
    FieldWeights(b.providers);
    FreshStartIsZero(b);
    ExactProportion(ws, j);
    var g := GameOf(b, ServeAll(b, ts));
    assert g.picks[k] == j * ws[k] && g.currents[k] == 0;
  }
}
