// The broker's table of services: registration, rolling traffic shifts, reaping
// and route leases. All services live in one locked table; every operation is
// one section of that lock.
module BrokerTable {
  import opened Wrappers
  import opened Sums
  import opened Broker
  import SmoothRoundRobin
  import TrafficShift

  datatype Lease = Lease(service: Name, provider: Name)

  // `leases` are the route leases handed out and not yet dropped.
  datatype State = State(services: map<Name, ServiceBroker>, leases: multiset<Lease>)

  datatype Op =
    | Register(service: Name, provider: Name, policy: Policy, weight: nat)
    | Unregister(service: Name, provider: Name)
    | SetPolicy(service: Name, policy: Policy)
    | Route(service: Name)
    | DropLease(service: Name, provider: Name)
    | ShiftTraffic(service: Name, provider: Name, step: nat)
    | ReapDrained(service: Name)

  // ---- Traffic shift ----

  // The k-th position other than the target, and its inverse.
  function Other(k: nat, target: nat): nat {
    if k < target then k else k + 1
  }

  function Slot(i: nat, target: nat): nat
    requires i != target
  {
    if i < target then i else i - 1
  }

  function Others(n: nat, target: nat): (others: seq<nat>)
    requires target < n
    ensures |others| == n - 1
    ensures forall k :: 0 <= k < n - 1 ==> others[k] == Other(k, target)
  {
    seq(n - 1, k requires 0 <= k < n - 1 => Other(k, target))
  }

  function OtherWeights(ps: seq<Provider>, target: nat): (ws: seq<int>)
    requires target < |ps|
  {
    seq(|ps| - 1, k requires 0 <= k < |ps| - 1 => ps[Other(k, target)].weight)
  }

  function Reduction(ps: seq<Provider>, target: nat, step: nat): int
    requires target < |ps|
  {
    TrafficShift.Min(TrafficShift.Min(step, 100), Sum(OtherWeights(ps, target)))
  }

  function Lowered(p: Provider, share: int): Provider {
    p.(weight := p.weight - share, draining := p.draining || p.weight == share)
  }

  // The providers after the first k others gave up their share.
  function LoweredTo(ps: seq<Provider>, target: nat, shares: seq<int>, k: nat): (r: seq<Provider>)
    requires target < |ps| && |shares| == |ps| - 1
    ensures |r| == |ps|
  {
    seq(|ps|, i requires 0 <= i < |ps| =>
      if i == target || Slot(i, target) >= k then ps[i] else Lowered(ps[i], shares[Slot(i, target)]))
  }

  // What every other provider gives up.
  function SharesOf(ps: seq<Provider>, target: nat, step: nat): (shares: seq<int>)
    requires target < |ps|
    ensures |shares| == |ps| - 1
  {
    var ws, r := OtherWeights(ps, target), Reduction(ps, target, step);
    if r > 0 then TrafficShift.Shares(ws, r, |ws|) else seq(|ws|, _ => 0)
  }

  function ShiftedBy(ps: seq<Provider>, target: nat, shares: seq<int>, reduction: int): (r: seq<Provider>)
    requires target < |ps| && |shares| == |ps| - 1
    ensures |r| == |ps|
  {
    var q := if reduction > 0 then LoweredTo(ps, target, shares, |ps| - 1) else ps;
    q[target := q[target].(weight := TrafficShift.Min(q[target].weight + reduction, 100), draining := false)]
  }

  function Shifted(ps: seq<Provider>, target: nat, step: nat): (r: seq<Provider>)
    requires target < |ps|
    ensures |r| == |ps|
  {
    ShiftedBy(ps, target, SharesOf(ps, target, step), Reduction(ps, target, step))
  }

  predicate ShiftComplete(ps: seq<Provider>, target: nat)
    requires target < |ps|
  {
    (forall i :: 0 <= i < |ps| && i != target ==> ps[i].weight == 0) && ps[target].weight >= 100
  }

  // ---- Reaping ----

  predicate Drained(p: Provider) {
    p.draining && p.weight == 0 && p.inFlight == 0
  }

  function Kept(ps: seq<Provider>, n: nat): (r: seq<Provider>)
    requires n <= |ps|
  {
    if n == 0 then [] else
      Kept(ps, n - 1) + (if Drained(ps[n - 1]) then [] else [ps[n - 1]])
  }

  // ---- One step of the locked table ----

  function Opened(st: State, service: Name, policy: Policy): ServiceBroker {
    if service in st.services then st.services[service] else ServiceBroker(policy, [], map[])
  }

  function Put(st: State, service: Name, b: ServiceBroker): State {
    st.(services := st.services[service := b])
  }

  function Step(st: State, op: Op): State {
    match op
    case Register(service, id, policy, weight) =>
      var b := Opened(st, service, policy);
      if IndexOf(b.providers, id) < |b.providers| then Put(st, service, b) else
        var p := Provider(id, TrafficShift.Min(weight, 100), false, 0, 0);
        Put(st, service, b.(providers := b.providers + [p]))
    case Unregister(service, id) =>
      if service !in st.services then st else
        var b := st.services[service];
        var at := IndexOf(b.providers, id);
        if at == |b.providers| || b.providers[at].inFlight > 0 then st else
          var rest := b.providers[..at] + b.providers[at + 1..];
          if rest == [] then st.(services := st.services - {service})
          else Put(st, service, b.(providers := rest))
    case SetPolicy(service, policy) =>
      if service !in st.services then st else
        Put(st, service, st.services[service].(policy := policy))
    case Route(service) =>
      if service !in st.services || Select(st.services[service]).None? then st else
        var b := st.services[service];
        var winner := b.providers[Select(b).value.index].id;
        Put(st, service, RouteOn(b)).(leases := st.leases + multiset{Lease(service, winner)})
    case DropLease(service, id) =>
      var gone := st.(leases := st.leases - multiset{Lease(service, id)});
      if service !in st.services then gone else
        var b := st.services[service];
        Put(gone, service, b.(providers := Returned(b.providers, id)))
    case ShiftTraffic(service, id, step) =>
      if service !in st.services then st else
        var b := st.services[service];
        var target := IndexOf(b.providers, id);
        if target == |b.providers| then st else
          Put(st, service, b.(providers := Shifted(b.providers, target, step)))
    case ReapDrained(service) =>
      if service !in st.services then st else
        var b := st.services[service];
        Put(st, service, b.(providers := Kept(b.providers, |b.providers|)))
  }

  // Only a lease that is still held can be dropped.
  predicate Enabled(st: State, op: Op) {
    op.DropLease? ==> Lease(op.service, op.provider) in st.leases
  }

  ghost predicate ProvidersGood(service: Name, ps: seq<Provider>, leases: multiset<Lease>) {
    && DistinctIds(ps)
    && forall i :: 0 <= i < |ps| ==>
      && 0 <= ps[i].weight <= 100
      && (ps[i].draining ==> ps[i].weight == 0)
      && ps[i].inFlight == leases[Lease(service, ps[i].id)]
  }

  // The invariant: ids are distinct, weights within 0..100, draining providers
  // carry no weight, in-flight counts are the live leases, the whole currents
  // table sums to zero, and every live lease names a registered provider.
  ghost predicate Good(st: State) {
    && (forall s :: s in st.services ==>
      ProvidersGood(s, st.services[s].providers, st.leases) && MapSum(st.services[s].current) == 0)
    && (forall l :: l in st.leases ==>
      l.service in st.services && HasId(st.services[l.service].providers, l.provider))
  }

  // ---- The invariant survives every operation ----

  ghost predicate SameIds(ps: seq<Provider>, qs: seq<Provider>) {
    |ps| == |qs| && forall i :: 0 <= i < |ps| ==> ps[i].id == qs[i].id
  }

  lemma SameIdsHave(ps: seq<Provider>, qs: seq<Provider>, id: Name)
    requires SameIds(ps, qs) && HasId(ps, id)
    ensures HasId(qs, id)
  {
    var i :| 0 <= i < |ps| && ps[i].id == id;
    assert qs[i].id == id;
  }

  lemma OtherServiceUnmoved(s: Name, ps: seq<Provider>, old_: multiset<Lease>, new_: multiset<Lease>)
    requires ProvidersGood(s, ps, old_)
    requires forall id :: new_[Lease(s, id)] == old_[Lease(s, id)]
    ensures ProvidersGood(s, ps, new_)
  {
  }

  // Replacing one service keeps the invariant when its own providers agree with
  // the new leases and no other service's leases moved.
  lemma PutKeepsGood(st: State, service: Name, b: ServiceBroker, leases: multiset<Lease>)
    requires Good(st)
    requires ProvidersGood(service, b.providers, leases) && MapSum(b.current) == 0
    requires forall l: Lease :: l.service != service ==> leases[l] == st.leases[l]
    requires forall l :: l in leases && l.service == service ==> HasId(b.providers, l.provider)
    ensures Good(State(st.services[service := b], leases))
  {
    var services := st.services[service := b];
    forall s | s in services
      ensures ProvidersGood(s, services[s].providers, leases) && MapSum(services[s].current) == 0
    {
      if s != service {
        OtherServiceUnmoved(s, services[s].providers, st.leases, leases);
      }
    }
    forall l | l in leases ensures l.service in services && HasId(services[l.service].providers, l.provider) {
      if l.service != service { assert l in st.leases; }
    }
  }

  lemma AppendKeepsProviders(service: Name, ps: seq<Provider>, p: Provider, leases: multiset<Lease>)
    requires ProvidersGood(service, ps, leases) && IndexOf(ps, p.id) == |ps|
    requires forall l :: l in leases && l.service == service ==> HasId(ps, l.provider)
    requires 0 <= p.weight <= 100 && !p.draining && p.inFlight == 0
    ensures ProvidersGood(service, ps + [p], leases)
    ensures forall l :: l in leases && l.service == service ==> HasId(ps + [p], l.provider)
  {
    assert Lease(service, p.id) !in leases;
    forall l | l in leases && l.service == service ensures HasId(ps + [p], l.provider) {
      var i :| 0 <= i < |ps| && ps[i].id == l.provider;
      assert (ps + [p])[i].id == l.provider;
    }
  }

  lemma RegisterKeepsGood(st: State, service: Name, id: Name, policy: Policy, weight: nat)
    requires Good(st)
    ensures Good(Step(st, Register(service, id, policy, weight)))
  {
    var b := Opened(st, service, policy);
    assert service !in st.services ==> forall l :: l in st.leases ==> l.service != service;
    assert MapSum(b.current) == 0 && ProvidersGood(service, b.providers, st.leases);
    if IndexOf(b.providers, id) < |b.providers| {
      PutKeepsGood(st, service, b, st.leases);
    } else {
      var p := Provider(id, TrafficShift.Min(weight, 100), false, 0, 0);
      AppendKeepsProviders(service, b.providers, p, st.leases);
      PutKeepsGood(st, service, b.(providers := b.providers + [p]), st.leases);
    }
  }

  lemma RemovalKeepsProviders(service: Name, ps: seq<Provider>, at: nat, leases: multiset<Lease>)
    requires ProvidersGood(service, ps, leases) && at < |ps| && ps[at].inFlight <= 0
    requires forall l :: l in leases && l.service == service ==> HasId(ps, l.provider)
    ensures var rest := ps[..at] + ps[at + 1..];
      && ProvidersGood(service, rest, leases)
      && forall l :: l in leases && l.service == service ==> HasId(rest, l.provider)
  {
    var rest := ps[..at] + ps[at + 1..];
    assert Lease(service, ps[at].id) !in leases;
    forall l | l in leases && l.service == service ensures HasId(rest, l.provider) {
      var i :| 0 <= i < |ps| && ps[i].id == l.provider;
      assert rest[if i < at then i else i - 1].id == l.provider;
    }
  }

  lemma UnregisterKeepsGood(st: State, service: Name, id: Name)
    requires Good(st)
    ensures Good(Step(st, Unregister(service, id)))
  {
    if service in st.services {
      var b := st.services[service];
      var ps, at := b.providers, IndexOf(b.providers, id);
      if at < |ps| && ps[at].inFlight <= 0 {
        var rest := ps[..at] + ps[at + 1..];
        RemovalKeepsProviders(service, ps, at, st.leases);
        if rest == [] {
          assert forall l :: l in st.leases && l.service == service ==> !HasId(rest, l.provider);
        } else {
          PutKeepsGood(st, service, b.(providers := rest), st.leases);
        }
      }
    }
  }

  lemma DispatchKeepsProviders(service: Name, ps: seq<Provider>, i: nat, leases: multiset<Lease>)
    requires ProvidersGood(service, ps, leases) && i < |ps|
    requires forall l :: l in leases && l.service == service ==> HasId(ps, l.provider)
    ensures var after, qs := leases + multiset{Lease(service, ps[i].id)}, Dispatched(ps, i);
      && ProvidersGood(service, qs, after)
      && forall l :: l in after && l.service == service ==> HasId(qs, l.provider)
  {
    var l, qs := Lease(service, ps[i].id), Dispatched(ps, i);
    assert qs[i].id == l.provider;
    forall m | m in leases + multiset{l} && m.service == service ensures HasId(qs, m.provider) {
      if m != l { SameIdsHave(ps, qs, m.provider); }
    }
  }

  lemma RouteKeepsGood(st: State, service: Name)
    requires Good(st)
    ensures Good(Step(st, Route(service)))
  {
    if service in st.services && Select(st.services[service]).Some? {
      var b := st.services[service];
      var i := Select(b).value.index;
      SelectKeepsSum(b);
      DispatchKeepsProviders(service, b.providers, i, st.leases);
      PutKeepsGood(st, service, RouteOn(b), st.leases + multiset{Lease(service, b.providers[i].id)});
    }
  }

  // A live lease names a registered provider with at least one dispatch in
  // flight, so returning it never takes the counter below zero.
  lemma DropNeverUnderflows(st: State, l: Lease)
    requires Good(st) && l in st.leases
    ensures l.service in st.services
    ensures var ps := st.services[l.service].providers;
      IndexOf(ps, l.provider) < |ps| && ps[IndexOf(ps, l.provider)].inFlight >= 1
  {
    var ps := st.services[l.service].providers;
    var i :| 0 <= i < |ps| && ps[i].id == l.provider;
    assert IndexOf(ps, l.provider) <= i;
  }

  lemma ReturnKeepsProviders(service: Name, ps: seq<Provider>, id: Name, leases: multiset<Lease>)
    requires ProvidersGood(service, ps, leases) && Lease(service, id) in leases
    requires forall l :: l in leases && l.service == service ==> HasId(ps, l.provider)
    ensures var after, qs := leases - multiset{Lease(service, id)}, Returned(ps, id);
      && ProvidersGood(service, qs, after)
      && forall l :: l in after && l.service == service ==> HasId(qs, l.provider)
  {
    var qs := Returned(ps, id);
    assert SameIds(ps, qs);
    forall m | m in leases && m.service == service ensures HasId(qs, m.provider) {
      SameIdsHave(ps, qs, m.provider);
    }
    var i :| 0 <= i < |ps| && ps[i].id == id;
    assert IndexOf(ps, id) <= i;
  }

  lemma DropKeepsGood(st: State, service: Name, id: Name)
    requires Good(st) && Lease(service, id) in st.leases
    ensures Good(Step(st, DropLease(service, id)))
  {
    var l, b := Lease(service, id), st.services[service];
    ReturnKeepsProviders(service, b.providers, id, st.leases);
    PutKeepsGood(st, service, b.(providers := Returned(b.providers, id)), st.leases - multiset{l});
  }

  // Equal but for weight and draining.
  ghost predicate SameTraffic(ps: seq<Provider>, qs: seq<Provider>) {
    && |ps| == |qs|
    && forall i :: 0 <= i < |ps| ==>
      ps[i].id == qs[i].id && ps[i].inFlight == qs[i].inFlight && ps[i].dispatched == qs[i].dispatched
  }

  ghost predicate WeightsInRange(ps: seq<Provider>) {
    forall i :: 0 <= i < |ps| ==> 0 <= ps[i].weight <= 100 && (ps[i].draining ==> ps[i].weight == 0)
  }

  lemma ReductionIsSplittable(ps: seq<Provider>, target: nat, step: nat)
    requires WeightsInRange(ps) && target < |ps|
    ensures 0 <= Reduction(ps, target, step) <= Sum(OtherWeights(ps, target))
    ensures Reduction(ps, target, step) > 0 ==>
      TrafficShift.Splittable(OtherWeights(ps, target), Reduction(ps, target, step))
  {
    var ws := OtherWeights(ps, target);
    SumToNonNegative(ws, |ws|);
  }

  lemma SharesInRange(ps: seq<Provider>, target: nat, step: nat, k: nat)
    requires WeightsInRange(ps) && target < |ps| && k < |ps| - 1
    ensures 0 <= SharesOf(ps, target, step)[k] <= ps[Other(k, target)].weight
  {
    ReductionIsSplittable(ps, target, step);
    if Reduction(ps, target, step) > 0 {
      TrafficShift.ShareInRange(OtherWeights(ps, target), Reduction(ps, target, step), k);
    }
  }

  // What a shift does to each provider: others lose their share and drain when
  // they reach zero, the target gains the whole reduction up to 100.
  lemma ShiftedAt(ps: seq<Provider>, target: nat, shares: seq<int>, r: int, i: nat)
    requires target < |ps| && |shares| == |ps| - 1 && i < |ps| && 0 <= r
    requires r == 0 ==> forall k :: 0 <= k < |shares| ==> shares[k] == 0
    ensures var p, q := ps[i], ShiftedBy(ps, target, shares, r)[i];
      && q.id == p.id && q.inFlight == p.inFlight && q.dispatched == p.dispatched
      && (i == target ==> q.weight == TrafficShift.Min(p.weight + r, 100) && !q.draining)
      && (i != target ==>
        && q.weight == p.weight - shares[Slot(i, target)]
        && q.draining == (p.draining || (r > 0 && q.weight == 0)))
  {
  }

  lemma ShiftedByInRange(ps: seq<Provider>, target: nat, shares: seq<int>, r: int)
    requires WeightsInRange(ps) && target < |ps| && |shares| == |ps| - 1 && 0 <= r
    requires r == 0 ==> forall k :: 0 <= k < |shares| ==> shares[k] == 0
    requires forall k :: 0 <= k < |shares| ==> 0 <= shares[k] <= ps[Other(k, target)].weight
    ensures WeightsInRange(ShiftedBy(ps, target, shares, r)) && SameTraffic(ps, ShiftedBy(ps, target, shares, r))
  {
    var q := ShiftedBy(ps, target, shares, r);
    forall i | 0 <= i < |ps|
      ensures 0 <= q[i].weight <= 100 && (q[i].draining ==> q[i].weight == 0)
      ensures ps[i].id == q[i].id && ps[i].inFlight == q[i].inFlight && ps[i].dispatched == q[i].dispatched
    {
      ShiftedAt(ps, target, shares, r, i);
      if i != target { assert Other(Slot(i, target), target) == i; }
    }
  }

  lemma ShiftKeepsRange(ps: seq<Provider>, target: nat, step: nat)
    requires WeightsInRange(ps) && target < |ps|
    ensures WeightsInRange(Shifted(ps, target, step)) && SameTraffic(ps, Shifted(ps, target, step))
  {
    forall k | 0 <= k < |ps| - 1
      ensures 0 <= SharesOf(ps, target, step)[k] <= ps[Other(k, target)].weight
    {
      SharesInRange(ps, target, step, k);
    }
    ReductionIsSplittable(ps, target, step);
    ShiftedByInRange(ps, target, SharesOf(ps, target, step), Reduction(ps, target, step));
  }

  lemma ShiftKeepsGood(st: State, service: Name, id: Name, step: nat)
    requires Good(st)
    ensures Good(Step(st, ShiftTraffic(service, id, step)))
  {
    if service in st.services {
      var b := st.services[service];
      var ps, target := b.providers, IndexOf(b.providers, id);
      if target < |ps| {
        var q := Shifted(ps, target, step);
        ShiftKeepsRange(ps, target, step);
        assert SameIds(ps, q);
        forall l | l in st.leases && l.service == service ensures HasId(q, l.provider) {
          SameIdsHave(ps, q, l.provider);
        }
        PutKeepsGood(st, service, b.(providers := q), st.leases);
      }
    }
  }

  lemma {:induction false} KeptMembers(ps: seq<Provider>, n: nat, p: Provider)
    requires n <= |ps|
    ensures p in Kept(ps, n) <==> p in ps[..n] && !Drained(p)
  {
    if n > 0 {
      KeptMembers(ps, n - 1, p);
      assert ps[..n] == ps[..n - 1] + [ps[n - 1]];
    }
  }

  lemma AppendIsDistinct(q: seq<Provider>, p: Provider)
    requires DistinctIds(q) && forall k :: 0 <= k < |q| ==> q[k].id != p.id
    ensures DistinctIds(q + [p])
  {
  }

  lemma KeptHaveOtherIds(ps: seq<Provider>, n: nat, k: nat)
    requires DistinctIds(ps) && n < |ps| && k < |Kept(ps, n)|
    ensures Kept(ps, n)[k].id != ps[n].id
  {
    KeptMembers(ps, n, Kept(ps, n)[k]);
    var i :| 0 <= i < n && ps[..n][i] == Kept(ps, n)[k];
    assert ps[i].id != ps[n].id;
  }

  lemma {:induction false} KeptIsDistinct(ps: seq<Provider>, n: nat)
    requires DistinctIds(ps) && n <= |ps|
    ensures DistinctIds(Kept(ps, n))
  {
    if n > 0 {
      KeptIsDistinct(ps, n - 1);
      var before := Kept(ps, n - 1);
      forall k | 0 <= k < |before| ensures before[k].id != ps[n - 1].id {
        KeptHaveOtherIds(ps, n - 1, k);
      }
      AppendIsDistinct(before, ps[n - 1]);
    }
  }

  lemma ReapKeepsProviders(service: Name, ps: seq<Provider>, leases: multiset<Lease>)
    requires ProvidersGood(service, ps, leases)
    requires forall l :: l in leases && l.service == service ==> HasId(ps, l.provider)
    ensures var q := Kept(ps, |ps|);
      && ProvidersGood(service, q, leases)
      && forall l :: l in leases && l.service == service ==> HasId(q, l.provider)
  {
    var q := Kept(ps, |ps|);
    KeptIsDistinct(ps, |ps|);
    assert ps[..|ps|] == ps;
    forall i | 0 <= i < |q| ensures q[i] in ps {
      KeptMembers(ps, |ps|, q[i]);
    }
    forall l | l in leases && l.service == service ensures HasId(q, l.provider) {
      var i :| 0 <= i < |ps| && ps[i].id == l.provider;
      KeptMembers(ps, |ps|, ps[i]);
      var j :| 0 <= j < |q| && q[j] == ps[i];
    }
  }

  lemma ReapKeepsGood(st: State, service: Name)
    requires Good(st)
    ensures Good(Step(st, ReapDrained(service)))
  {
    if service in st.services {
      var b := st.services[service];
      ReapKeepsProviders(service, b.providers, st.leases);
      PutKeepsGood(st, service, b.(providers := Kept(b.providers, |b.providers|)), st.leases);
    }
  }

  lemma StepKeepsGood(st: State, op: Op)
    requires Good(st) && Enabled(st, op)
    ensures Good(Step(st, op))
  {
    match op
    case Register(service, id, policy, weight) => RegisterKeepsGood(st, service, id, policy, weight);
    case Unregister(service, id) => UnregisterKeepsGood(st, service, id);
    case SetPolicy(service, policy) =>
      if service in st.services {
        PutKeepsGood(st, service, st.services[service].(policy := policy), st.leases);
      }
    case Route(service) => RouteKeepsGood(st, service);
    case DropLease(service, id) => DropKeepsGood(st, service, id);
    case ShiftTraffic(service, id, step) => ShiftKeepsGood(st, service, id, step);
    case ReapDrained(service) => ReapKeepsGood(st, service);
  }

  function Empty(): State {
    State(map[], multiset{})
  }

  // The state after the first n operations; a drop of a lease nobody holds
  // cannot occur and is skipped.
  function RunTo(ops: seq<Op>, n: nat): State
    requires n <= |ops|
  {
    if n == 0 then Empty() else
      var st := RunTo(ops, n - 1);
      if Enabled(st, ops[n - 1]) then Step(st, ops[n - 1]) else st
  }

  // Main result: the invariant holds in every reachable state.
  lemma {:induction false} ReachableIsGood(ops: seq<Op>, n: nat)
    requires n <= |ops|
    ensures Good(RunTo(ops, n))
  {
    if n > 0 {
      ReachableIsGood(ops, n - 1);
      if Enabled(RunTo(ops, n - 1), ops[n - 1]) {
        StepKeepsGood(RunTo(ops, n - 1), ops[n - 1]);
      }
    }
  }

  // ---- What a traffic shift achieves ----

  ghost function OtherWeight(ps: seq<Provider>, target: nat): int
    requires target < |ps|
  {
    Sum(OtherWeights(ps, target))
  }

  lemma {:induction false} SumOfDifferences(a: seq<int>, b: seq<int>, d: seq<int>, n: nat)
    requires n <= |a| && n <= |b| && n <= |d|
    requires forall i :: 0 <= i < n ==> a[i] == b[i] - d[i]
    ensures SumTo(a, n) == SumTo(b, n) - SumTo(d, n)
  {
    if n > 0 { SumOfDifferences(a, b, d, n - 1); }
  }

  lemma LostIsSum(ps: seq<Provider>, target: nat, shares: seq<int>, r: int)
    requires target < |ps| && |shares| == |ps| - 1 && 0 <= r
    requires r == 0 ==> forall k :: 0 <= k < |shares| ==> shares[k] == 0
    ensures OtherWeight(ps, target) - OtherWeight(ShiftedBy(ps, target, shares, r), target) == Sum(shares)
  {
    var n := |shares|;
    var ws, after := OtherWeights(ps, target), OtherWeights(ShiftedBy(ps, target, shares, r), target);
    forall k | 0 <= k < n ensures after[k] == ws[k] - shares[k] {
      ShiftedAt(ps, target, shares, r, Other(k, target));
      assert Slot(Other(k, target), target) == k;
    }
    SumOfDifferences(after, ws, shares, n);
  }

  lemma LostIsShares(ps: seq<Provider>, target: nat, step: nat)
    requires WeightsInRange(ps) && target < |ps|
    ensures OtherWeight(ps, target) - OtherWeight(Shifted(ps, target, step), target) == Sum(SharesOf(ps, target, step))
    ensures 0 <= Sum(SharesOf(ps, target, step))
  {
    ReductionIsSplittable(ps, target, step);
    LostIsSum(ps, target, SharesOf(ps, target, step), Reduction(ps, target, step));
    forall k | 0 <= k < |ps| - 1 ensures 0 <= SharesOf(ps, target, step)[k] {
      SharesInRange(ps, target, step, k);
    }
    SumToNonNegative(SharesOf(ps, target, step), |ps| - 1);
  }

  lemma {:induction false} SumOfZeros(m: nat, n: nat)
    requires n <= m
    ensures SumTo(seq(m, _ => 0), n) == 0
  {
    if n > 0 { SumOfZeros(m, n - 1); }
  }

  // Main result: the m others together lose at most the reduction; all of it
  // when m is 1, more than the reduction less (m - 1) otherwise; and something
  // unless the last of them has no weight and every other part rounds to zero.
  lemma ShiftOutcome(ps: seq<Provider>, target: nat, step: nat)
    requires WeightsInRange(ps) && target < |ps|
    ensures var ws, r, m := OtherWeights(ps, target), Reduction(ps, target, step), |ps| - 1;
      var lost := OtherWeight(ps, target) - OtherWeight(Shifted(ps, target, step), target);
      && 0 <= lost <= r
      && (m == 1 ==> lost == r)
      && (m >= 2 && r > 0 ==> lost > r - (m - 1))
      && (r > 0 ==> m > 0 && (lost == 0 <==>
        ws[m - 1] == 0 && forall i :: 0 <= i < m - 1 ==> r * ws[i] < Sum(ws)))
  {
    var ws, r := OtherWeights(ps, target), Reduction(ps, target, step);
    LostIsShares(ps, target, step);
    ReductionIsSplittable(ps, target, step);
    if r > 0 {
      TrafficShift.TakenBounds(ws, r);
      TrafficShift.TakesNothingExactly(ws, r);
    } else {
      SumOfZeros(|ws|, |ws|);
    }
  }

  function ShiftTimes(ps: seq<Provider>, target: nat, step: nat, k: nat): (r: seq<Provider>)
    requires target < |ps|
    ensures |r| == |ps|
  {
    if k == 0 then ps else Shifted(ShiftTimes(ps, target, step, k - 1), target, step)
  }

  lemma SingleShare(w: int, r: int)
    requires 0 < r <= w
    ensures Sum([w]) == w && TrafficShift.Shares([w], r, 1) == [r]
  {
    assert SumTo([w], 0) == 0 && Sum([]) == 0;
    assert TrafficShift.Shares([w], r, 0) == [];
  }

  lemma TwoProviders(ps: seq<Provider>, step: nat)
    requires |ps| == 2 && WeightsInRange(ps)
    ensures var q, moved := Shifted(ps, 1, step), TrafficShift.Min(TrafficShift.Min(step, 100), ps[0].weight);
      && WeightsInRange(q)
      && q[0].weight == ps[0].weight - moved
      && q[1].weight == TrafficShift.Min(ps[1].weight + moved, 100)
  {
    var w, r := ps[0].weight, Reduction(ps, 1, step);
    assert OtherWeights(ps, 1) == [w];
    assert SumTo([w], 0) == 0;
    ShiftKeepsRange(ps, 1, step);
    if r > 0 { SingleShare(w, r); }
    ShiftedAt(ps, 1, SharesOf(ps, 1, step), r, 0);
    ShiftedAt(ps, 1, SharesOf(ps, 1, step), r, 1);
  }

  // Main result: a rolling update from one provider at 100 to a new one at 0
  // keeps the weights at 100 together, and the k-th shift reports completion
  // exactly when k steps cover the 100.
  lemma {:induction false} RollingUpdate(ps: seq<Provider>, step: nat, k: nat)
    requires |ps| == 2 && WeightsInRange(ps) && ps[0].weight == 100 && ps[1].weight == 0
    ensures var q, s := ShiftTimes(ps, 1, step, k), TrafficShift.Min(step, 100);
      && WeightsInRange(q)
      && q[0].weight + q[1].weight == 100
      && q[1].weight == TrafficShift.Min(k * s, 100)
      && (ShiftComplete(q, 1) <==> k * s >= 100)
  {
    var s := TrafficShift.Min(step, 100);
    if k > 0 {
      RollingUpdate(ps, step, k - 1);
      TwoProviders(ShiftTimes(ps, 1, step, k - 1), step);
      assert k * s == (k - 1) * s + s;
    }
  }

  lemma CeilingOfHundred(k: nat, step: nat)
    requires 1 <= step
    ensures k * step >= 100 <==> k >= (100 + step - 1) / step
  {
    var c := (100 + step - 1) / step;
    TrafficShift.DivBounds(100 + step - 1, step);
    assert (c + 1) * step == c * step + step;
    if k >= c {
      TrafficShift.MulMono(c, k, step);
    } else {
      TrafficShift.MulMono(k + 1, c, step);
      assert (k + 1) * step == k * step + step;
    }
  }

  // For a step of 1 to 100 the first complete shift is number ceil(100 / step).
  lemma RollingUpdateCompletes(ps: seq<Provider>, step: nat, k: nat)
    requires |ps| == 2 && WeightsInRange(ps) && ps[0].weight == 100 && ps[1].weight == 0
    requires 1 <= step <= 100
    ensures ShiftComplete(ShiftTimes(ps, 1, step, k), 1) <==> k >= (100 + step - 1) / step
  {
    RollingUpdate(ps, step, k);
    CeilingOfHundred(k, step);
  }

  lemma GoodService(st: State, service: Name)
    requires Good(st) && service in st.services
    ensures DistinctIds(st.services[service].providers) && WeightsInRange(st.services[service].providers)
  {
    assert ProvidersGood(service, st.services[service].providers, st.leases);
  }

  predicate Listed(st: State, service: Name, id: Name) {
    service in st.services && IndexOf(st.services[service].providers, id) < |st.services[service].providers|
  }

  // The provider is registered and carries all of the service's traffic.
  predicate Carries(st: State, service: Name, id: Name) {
    Listed(st, service, id) &&
    ShiftComplete(st.services[service].providers, IndexOf(st.services[service].providers, id))
  }

  lemma {:induction false} SameIdsSamePosition(ps: seq<Provider>, qs: seq<Provider>, id: Name, from: nat)
    requires SameIds(ps, qs) && from <= |ps|
    ensures IndexOf(ps, id, from) == IndexOf(qs, id, from)
    decreases |ps| - from
  {
    if from < |ps| { SameIdsSamePosition(ps, qs, id, from + 1); }
  }

  lemma EntryAt(ps: seq<Provider>, field: seq<nat>, before: map<Name, int>, k: nat)
    requires DistinctField(ps, field) && k < |field|
    ensures Cur(RaiseTo(ps, field, before, k), ps[field[k]].id) + ps[field[k]].weight
      == SmoothRoundRobin.Raised(CurrentsOf(ps, field, before), WeightsOf(ps, field))[k]
  {
    RaisedAt(ps, field, before, k, k);
  }

  lemma RaiseNext(ps: seq<Provider>, field: seq<nat>, before: map<Name, int>, k: nat)
    requires InField(ps, field) && k < |field|
    ensures var m, p := RaiseTo(ps, field, before, k), ps[field[k]];
      RaiseTo(ps, field, before, k + 1) == m[p.id := Cur(m, p.id) + p.weight]
  {
  }

  // After k entries `best` holds the first largest, whose value is `highest`.
  ghost predicate Leads(ps: seq<Provider>, field: seq<nat>, before: map<Name, int>, k: nat, best: nat, highest: int)
    requires InField(ps, field) && 0 < k <= |field|
  {
    var earned := SmoothRoundRobin.Raised(CurrentsOf(ps, field, before), WeightsOf(ps, field));
    best == SmoothRoundRobin.FirstMax(earned, k) && highest == earned[best]
  }

  lemma LeadStep(ps: seq<Provider>, field: seq<nat>, before: map<Name, int>, k: nat, best: nat, highest: int)
    requires DistinctField(ps, field) && k < |field|
    requires k > 0 ==> Leads(ps, field, before, k, best, highest)
    ensures var entry := Cur(RaiseTo(ps, field, before, k), ps[field[k]].id) + ps[field[k]].weight;
      if k == 0 || entry > highest then Leads(ps, field, before, k + 1, k, entry)
      else Leads(ps, field, before, k + 1, best, highest)
  {
    EntryAt(ps, field, before, k);
  }

  lemma NextShare(ws: seq<int>, reduction: int, n: nat, share: int)
    requires n < |ws| && Sum(ws) > 0
    requires var remaining := reduction - Sum(TrafficShift.Shares(ws, reduction, n));
      share == TrafficShift.Min(TrafficShift.Min(TrafficShift.Asked(ws, reduction, n, remaining), ws[n]), remaining)
    ensures TrafficShift.Shares(ws, reduction, |ws|)[n] == share
    ensures Sum(TrafficShift.Shares(ws, reduction, n + 1)) == Sum(TrafficShift.Shares(ws, reduction, n)) + share
  {
    TrafficShift.SharesPrefix(ws, reduction, n + 1, |ws|);
    assert TrafficShift.Shares(ws, reduction, |ws|)[n] == TrafficShift.Shares(ws, reduction, n + 1)[n];
    SumToAppend(TrafficShift.Shares(ws, reduction, n), share);
  }

  lemma LoweredNext(ps: seq<Provider>, target: nat, shares: seq<int>, n: nat)
    requires target < |ps| && |shares| == |ps| - 1 && n < |shares|
    ensures LoweredTo(ps, target, shares, n + 1)
      == LoweredTo(ps, target, shares, n)[Other(n, target) := Lowered(ps[Other(n, target)], shares[n])]
  {
  }

  // The ids of the drained ones among the first n, in order.
  function Removed(ps: seq<Provider>, n: nat): (r: seq<Name>)
    requires n <= |ps|
  {
    if n == 0 then [] else Removed(ps, n - 1) + (if Drained(ps[n - 1]) then [ps[n - 1].id] else [])
  }

  // Draining, without weight and without a dispatch in flight.
  predicate Over(p: Provider) {
    p.draining && p.weight == 0 && p.inFlight == 0
  }

  // `kept` are the providers that are not over, in order.
  ghost predicate StayAt(ps: seq<Provider>, kept: seq<Provider>, stay: seq<nat>) {
    Thinned(ps, kept, stay) && forall i :: 0 <= i < |ps| ==> (i in stay <==> !Over(ps[i]))
  }

  // `removed` are the ids of those that are, in order.
  ghost predicate GoneAt(ps: seq<Provider>, removed: seq<Name>, gone: seq<nat>) {
    && |removed| == |gone|
    && (forall j, k :: 0 <= j < k < |gone| ==> gone[j] < gone[k])
    && (forall k :: 0 <= k < |gone| ==> gone[k] < |ps| && removed[k] == ps[gone[k]].id)
    && forall i :: 0 <= i < |ps| ==> (i in gone <==> Over(ps[i]))
  }

  ghost predicate ReapsOver(ps: seq<Provider>, kept: seq<Provider>, removed: seq<Name>) {
    (exists stay: seq<nat> :: StayAt(ps, kept, stay)) && (exists gone: seq<nat> :: GoneAt(ps, removed, gone))
  }

  lemma StayNext(ps: seq<Provider>, kept: seq<Provider>, stay: seq<nat>, p: Provider)
    requires StayAt(ps, kept, stay)
    ensures Over(p) ==> StayAt(ps + [p], kept, stay)
    ensures !Over(p) ==> StayAt(ps + [p], kept + [p], stay + [|ps|])
  {
  }

  lemma GoneNext(ps: seq<Provider>, removed: seq<Name>, gone: seq<nat>, p: Provider)
    requires GoneAt(ps, removed, gone)
    ensures !Over(p) ==> GoneAt(ps + [p], removed, gone)
    ensures Over(p) ==> GoneAt(ps + [p], removed + [p.id], gone + [|ps|])
  {
  }

  lemma {:induction false} StayPlaces(ps: seq<Provider>, n: nat) returns (stay: seq<nat>)
    requires n <= |ps|
    ensures StayAt(ps[..n], Kept(ps, n), stay)
  {
    stay := [];
    if n > 0 {
      stay := StayPlaces(ps, n - 1);
      StayNext(ps[..n - 1], Kept(ps, n - 1), stay, ps[n - 1]);
      assert ps[..n] == ps[..n - 1] + [ps[n - 1]];
      if !Over(ps[n - 1]) { stay := stay + [n - 1]; }
    }
  }

  lemma {:induction false} GonePlaces(ps: seq<Provider>, n: nat) returns (gone: seq<nat>)
    requires n <= |ps|
    ensures GoneAt(ps[..n], Removed(ps, n), gone)
  {
    gone := [];
    if n > 0 {
      gone := GonePlaces(ps, n - 1);
      GoneNext(ps[..n - 1], Removed(ps, n - 1), gone, ps[n - 1]);
      assert ps[..n] == ps[..n - 1] + [ps[n - 1]];
      if Over(ps[n - 1]) { gone := gone + [n - 1]; }
    }
  }

  // Main result: reaping removes exactly the providers that are over.
  lemma ReapsExactly(ps: seq<Provider>, kept: seq<Provider>, removed: seq<Name>)
    requires kept == Kept(ps, |ps|) && removed == Removed(ps, |ps|)
    ensures ReapsOver(ps, kept, removed)
  {
    var stay := StayPlaces(ps, |ps|);
    var gone := GonePlaces(ps, |ps|);
    assert ps[..|ps|] == ps;
  }

  ghost predicate TakesLeastLoaded(ps: seq<Provider>, id: Name) {
    exists i: nat :: FirstLeastLoaded(ps, i) && ps[i].id == id
  }

  // ---- The table itself ----

  class Brokers {
    var services: map<Name, ServiceBroker>
    ghost var leases: multiset<Lease>

    ghost function Snapshot(): State
      reads this
    {
      State(services, leases)
    }

    ghost predicate Valid()
      reads this
    {
      Good(Snapshot())
    }

    constructor ()
      ensures Valid() && Snapshot() == Empty()
    {
      services, leases := map[], multiset{};
    }

    method RegisterWithWeight(service: Name, id: Name, policy: Policy, weight: nat)
      requires Valid()
      modifies this
      ensures Valid() && Snapshot() == Step(old(Snapshot()), Register(service, id, policy, weight))
    {
      ghost var st := Snapshot();
      var b := if service in services then services[service] else ServiceBroker(policy, [], map[]);
      if IndexOf(b.providers, id) == |b.providers| {
        b := b.(providers := b.providers + [Provider(id, if weight < 100 then weight else 100, false, 0, 0)]);
      }
      services := services[service := b];
      assert Snapshot() == Step(st, Register(service, id, policy, weight));
      RegisterKeepsGood(st, service, id, policy, weight);
    }

    // True when the provider is gone afterwards.
    method Unregister(service: Name, id: Name) returns (gone: bool)
      requires Valid()
      modifies this
      ensures Valid() && Snapshot() == Step(old(Snapshot()), Op.Unregister(service, id))
      ensures gone <==> !Listed(Snapshot(), service, id)
    {
      ghost var st := Snapshot();
      if service !in services { return true; }
      var b := services[service];
      var at := IndexOf(b.providers, id);
      if at == |b.providers| { return true; }
      if b.providers[at].inFlight > 0 { return false; }
      var rest := b.providers[..at] + b.providers[at + 1..];
      if rest == [] {
        services := services - {service};
      } else {
        services := services[service := b.(providers := rest)];
      }
      assert Snapshot() == Step(st, Op.Unregister(service, id));
      GoodService(st, service);
      UnregisterKeepsGood(st, service, id);
      return true;
    }

    method SetServicePolicy(service: Name, policy: Policy)
      requires Valid()
      modifies this
      ensures Valid() && Snapshot() == Step(old(Snapshot()), SetPolicy(service, policy))
    {
      ghost var st := Snapshot();
      if service in services {
        services := services[service := services[service].(policy := policy)];
      }
      assert Snapshot() == Step(st, SetPolicy(service, policy));
      StepKeepsGood(st, SetPolicy(service, policy));
    }

    static method ListRoutable(ps: seq<Provider>) returns (field: seq<nat>)
      ensures field == Field(ps)
    {
      field := [];
      for i := 0 to |ps|
        invariant field == RoutableTo(ps, i)
      {
        if Routable(ps[i]) { field := field + [i]; }
      }
    }

    static method FindLeastLoaded(ps: seq<Provider>, field: seq<nat>) returns (best: nat)
      requires InField(ps, field) && field != []
      ensures best == SmoothRoundRobin.FirstMax(IdlenessOf(ps, field), |field|)
    {
      ghost var idleness := IdlenessOf(ps, field);
      best := 0;
      for k := 1 to |field|
        invariant best < |field| && best == SmoothRoundRobin.FirstMax(idleness, k)
      {
        if ps[field[k]].inFlight < ps[field[best]].inFlight { best := k; }
      }
    }

    // The choice of one provider, by the same loops as the table's own.
    static method Choose(b: ServiceBroker) returns (c: Option<Choice>)
      requires DistinctIds(b.providers)
      ensures c == Select(b)
      ensures c.Some? <==> AnyRoutable(b.providers)
      ensures c.Some? && b.policy.LeastLoaded? ==>
        FirstLeastLoaded(b.providers, c.value.index) && c.value.current == b.current
    {
      SelectsIfAnyRoutable(b);
      var field := ListRoutable(b.providers);
      if field == [] { return None; }
      match b.policy
      case RoundRobin =>
        FieldIsDistinct(b.providers);
        var index, current := EarnAndPay(b.providers, field, b.current);
        c := Some(Choice(index, current));
      case LeastLoaded =>
        var best := FindLeastLoaded(b.providers, field);
        c := Some(Choice(field[best], b.current));
        LeastLoadedSelects(b);
    }

    static method TotalWeight(ps: seq<Provider>, field: seq<nat>) returns (total: int)
      requires InField(ps, field)
      ensures total == Sum(WeightsOf(ps, field))
    {
      ghost var ws := WeightsOf(ps, field);
      total := 0;
      for k := 0 to |field|
        invariant total == SumTo(ws, k)
      {
        total := total + ps[field[k]].weight;
      }
    }

    static method Earn(ps: seq<Provider>, field: seq<nat>, before: map<Name, int>)
      returns (best: nat, current: map<Name, int>)
      requires DistinctField(ps, field) && field != []
      ensures current == RaiseTo(ps, field, before, |field|)
      ensures best == SmoothRoundRobin.Winner(CurrentsOf(ps, field, before), WeightsOf(ps, field))
    {
      current := before;
      best := 0;
      var highest := 0;
      for k := 0 to |field|
        invariant current == RaiseTo(ps, field, before, k)
        invariant best < |field|
        invariant k > 0 ==> Leads(ps, field, before, k, best, highest)
      {
        var p := ps[field[k]];
        var entry := Cur(current, p.id) + p.weight;
        RaiseNext(ps, field, before, k);
        LeadStep(ps, field, before, k, best, highest);
        current := current[p.id := entry];
        if k == 0 || entry > highest { best, highest := k, entry; }
      }
    }

    static method EarnAndPay(ps: seq<Provider>, field: seq<nat>, before: map<Name, int>)
      returns (index: nat, current: map<Name, int>)
      requires DistinctField(ps, field) && field != []
      ensures Choice(index, current) == TurnOn(ps, field, before)
    {
      var total := TotalWeight(ps, field);
      var best;
      best, current := Earn(ps, field, before);
      index := field[best];
      var id := ps[index].id;
      current := current[id := Cur(current, id) - total];
    }

    // The id of the provider a lease was taken on, or None when nothing routes.
    method TakeLease(service: Name) returns (provider: Option<Name>)
      requires Valid()
      modifies this
      ensures Valid() && Snapshot() == Step(old(Snapshot()), Route(service))
      ensures leases == old(leases) + if provider.Some? then multiset{Lease(service, provider.value)} else multiset{}
      ensures provider.None? <==> old(service !in services || !AnyRoutable(services[service].providers))
      ensures provider.Some? && old(services[service].policy.LeastLoaded?) ==>
        TakesLeastLoaded(old(services[service].providers), provider.value)
    {
      ghost var st := Snapshot();
      if service !in services { return None; }
      var b := services[service];
      GoodService(st, service);
      var c := Choose(b);
      if c.None? { return None; }
      var i := c.value.index;
      services := services[service := b.(providers := Dispatched(b.providers, i), current := c.value.current)];
      provider := Some(b.providers[i].id);
      leases := leases + multiset{Lease(service, provider.value)};
      assert Snapshot() == Step(st, Route(service));
      RouteKeepsGood(st, service);
    }

    static method Decrement(ps: seq<Provider>, id: Name) returns (qs: seq<Provider>)
      ensures qs == Returned(ps, id)
    {
      qs := ps;
      var at := IndexOf(ps, id);
      if at < |ps| { qs := ps[at := ps[at].(inFlight := ps[at].inFlight - 1)]; }
    }

    method DropRouteLease(service: Name, id: Name)
      requires Valid() && Lease(service, id) in leases
      modifies this
      ensures Valid() && Snapshot() == Step(old(Snapshot()), DropLease(service, id))
    {
      ghost var st := Snapshot();
      leases := leases - multiset{Lease(service, id)};
      if service in services {
        var b := services[service];
        var ps := Decrement(b.providers, id);
        services := services[service := b.(providers := ps)];
      }
      assert Snapshot() == Step(st, DropLease(service, id));
      DropKeepsGood(st, service, id);
    }

    // True when the target carries all the traffic afterwards.
    method Shift(service: Name, id: Name, stepPercent: nat) returns (complete: bool)
      requires Valid()
      modifies this
      ensures Valid() && Snapshot() == Step(old(Snapshot()), Op.ShiftTraffic(service, id, stepPercent))
      ensures complete <==> Carries(Snapshot(), service, id)
    {
      ghost var st := Snapshot();
      if service !in services { return false; }
      var b := services[service];
      var target := IndexOf(b.providers, id);
      if target == |b.providers| { return false; }
      GoodService(st, service);
      var ps := ShiftProviders(b.providers, target, stepPercent);
      services := services[service := b.(providers := ps)];
      assert Snapshot() == Step(st, Op.ShiftTraffic(service, id, stepPercent));
      complete := IsComplete(ps, target);
      ShiftKeepsRange(b.providers, target, stepPercent);
      SameIdsSamePosition(b.providers, ps, id, 0);
      ShiftKeepsGood(st, service, id, stepPercent);
    }

    static method IsComplete(ps: seq<Provider>, target: nat) returns (complete: bool)
      requires target < |ps|
      ensures complete <==> ShiftComplete(ps, target)
    {
      complete := ps[target].weight >= 100;
      for i := 0 to |ps|
        invariant complete <==> ps[target].weight >= 100 && forall j :: 0 <= j < i && j != target ==> ps[j].weight == 0
      {
        if i != target && ps[i].weight != 0 { complete := false; }
      }
    }

    // Takes the reduction from the others.
    static method LowerAll(ps: seq<Provider>, target: nat, stepPercent: nat)
      returns (q: seq<Provider>, reduction: int)
      requires target < |ps| && WeightsInRange(ps)
      ensures reduction == Reduction(ps, target, stepPercent)
      ensures q == if reduction > 0 then LoweredTo(ps, target, SharesOf(ps, target, stepPercent), |ps| - 1) else ps
    {
      var step := if stepPercent < 100 then stepPercent else 100;
      var others, total := ListOthers(ps, target);
      reduction := if step < total then step else total;
      q := ps;
      if reduction > 0 {
        ReductionIsSplittable(ps, target, stepPercent);
        q := LowerOthers(ps, target, others, reduction, total);
      }
    }

    static method ShiftProviders(ps: seq<Provider>, target: nat, stepPercent: nat) returns (q: seq<Provider>)
      requires target < |ps| && WeightsInRange(ps)
      ensures q == Shifted(ps, target, stepPercent)
    {
      var reduction;
      q, reduction := LowerAll(ps, target, stepPercent);
      var raised := q[target].weight + reduction;
      q := q[target := q[target].(weight := if raised < 100 then raised else 100, draining := false)];
    }

    static method ListOthers(ps: seq<Provider>, target: nat) returns (others: seq<nat>, total: int)
      requires target < |ps|
      ensures others == Others(|ps|, target)
      ensures total == Sum(OtherWeights(ps, target))
    {
      ghost var ws := OtherWeights(ps, target);
      others, total := [], 0;
      for i := 0 to |ps|
        invariant |others| == if i <= target then i else i - 1
        invariant forall k :: 0 <= k < |others| ==> others[k] == Other(k, target)
        invariant total == SumTo(ws, |others|)
      {
        if i != target {
          assert Other(|others|, target) == i;
          others := others + [i];
          total := total + ps[i].weight;
        }
      }
    }

    static method LowerOthers(ps: seq<Provider>, target: nat, others: seq<nat>, reduction: int, total: int)
      returns (q: seq<Provider>)
      requires target < |ps| && others == Others(|ps|, target)
      requires total == Sum(OtherWeights(ps, target)) > 0
      ensures q == LoweredTo(ps, target, TrafficShift.Shares(OtherWeights(ps, target), reduction, |ps| - 1), |ps| - 1)
    {
      ghost var ws := OtherWeights(ps, target);
      ghost var shares := TrafficShift.Shares(ws, reduction, |ws|);
      q := ps;
      var remaining := reduction;
      for n := 0 to |others|
        invariant q == LoweredTo(ps, target, shares, n)
        invariant remaining == reduction - Sum(TrafficShift.Shares(ws, reduction, n))
      {
        var i := others[n];
        var share := if n + 1 == |others| then remaining else reduction * ps[i].weight / total;
        if ps[i].weight < share { share := ps[i].weight; }
        if remaining < share { share := remaining; }
        NextShare(ws, reduction, n, share);
        LoweredNext(ps, target, shares, n);
        q := q[i := Lowered(ps[i], share)];
        remaining := remaining - share;
      }
    }

    // The ids of the removed providers, in order.
    method Reap(service: Name) returns (removed: seq<Name>)
      requires Valid()
      modifies this
      ensures Valid() && Snapshot() == Step(old(Snapshot()), ReapDrained(service))
      ensures removed == if service in old(services)
        then Removed(old(services[service].providers), |old(services[service].providers)|) else []
      ensures service in old(services) ==>
        service in services && ReapsOver(old(services)[service].providers, services[service].providers, removed)
    {
      ghost var st := Snapshot();
      if service !in services { return []; }
      var b := services[service];
      var kept: seq<Provider>;
      kept, removed := Retain(b.providers);
      services := services[service := b.(providers := kept)];
      assert Snapshot() == Step(st, ReapDrained(service));
      ReapKeepsGood(st, service);
      ReapsExactly(old(services)[service].providers, services[service].providers, removed);
    }

    static method Retain(ps: seq<Provider>) returns (kept: seq<Provider>, removed: seq<Name>)
      ensures kept == Kept(ps, |ps|) && removed == Removed(ps, |ps|)
    {
      kept, removed := [], [];
      for i := 0 to |ps|
        invariant kept == Kept(ps, i) && removed == Removed(ps, i)
      {
        if Drained(ps[i]) { removed := removed + [ps[i].id]; } else { kept := kept + [ps[i]]; }
      }
    }
  }
}
