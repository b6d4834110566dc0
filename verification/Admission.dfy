// Admission to a plugin pool: counters per band, one holder per admission, and
// three ways to release one (its guard is dropped, it is over age, its thread
// is gone), which may race. Every operation is one section of the pool's lock.
module Admission {
  import opened Wrappers

  const MAX_CONCURRENT_HEAVY_DISPATCHES := 3

  datatype CostClass = Cheap | Heavy | Short

  datatype Kind = General(heavy: bool) | GitBand | Blocking

  datatype Holder = Holder(id: nat, since: nat, thread: nat, kind: Kind)

  datatype Band = InGeneral | InHeavy | InGitBand | InBlocking

  // `released` lists the holders that were released, in order.
  datatype Pool = Pool(slots: nat, general: nat, heavy: nat, gitBand: nat, blocking: nat,
                       holders: seq<Holder>, nextId: nat, released: seq<nat>)

  datatype Outcome = Unmetered | Admitted(holder: nat, kind: Kind) | Waiting

  datatype Op =
    | Admit(cost: CostClass, gitLane: bool, blockingVerb: bool, now: nat, thread: nat)
    | AdmitBlocking(blockingVerb: bool, now: nat, thread: nat)
    | Release(id: nat)
    | ReleaseOverAge(now: nat, minHeld: nat)

  // ---- The band limits of a pool of n slots ----

  function Max(a: nat, b: nat): nat { if a < b then b else a }

  function Min(a: nat, b: nat): nat { if a < b then a else b }

  function ShortReserved(n: nat): nat { Max(n / 4, 1) }

  function GeneralLimit(n: nat): nat { Max(Minus(n, ShortReserved(n)), 1) }

  function HeavyLimit(n: nat): nat {
    Max(Min(Min(Minus(GeneralLimit(n), 1), Minus(n, 1)), MAX_CONCURRENT_HEAVY_DISPATCHES), 1)
  }

  function BlockingLimit(n: nat): nat { Max(Minus(n, ShortReserved(n)), 1) }

  function GitBandLimit(n: nat): nat { Max(Minus(ShortReserved(n), 1), 1) }

  // General and git band together leave a slot free exactly from 8 slots on.
  lemma BandsLeaveOneSlot(n: nat)
    requires n >= 2
    ensures GeneralLimit(n) + GitBandLimit(n) <= n - 1 <==> n >= 8
    ensures GeneralLimit(n) + GitBandLimit(n) <= n
  {
  }

  // ---- Holders ----

  predicate InBand(k: Kind, band: Band) {
    match band
    case InGeneral => k.General?
    case InHeavy => k.General? && k.heavy
    case InGitBand => k.GitBand?
    case InBlocking => k.Blocking?
  }

  function Count(hs: seq<Holder>, band: Band): nat {
    if hs == [] then 0 else
      Count(hs[..|hs| - 1], band) + (if InBand(hs[|hs| - 1].kind, band) then 1 else 0)
  }

  function IndexOf(hs: seq<Holder>, id: nat, from: nat := 0): (at: nat)
    requires from <= |hs|
    ensures from <= at <= |hs|
    ensures at < |hs| ==> hs[at].id == id
    decreases |hs| - from
  {
    if from == |hs| || hs[from].id == id then from else IndexOf(hs, id, from + 1)
  }

  // A holder that is there is found, at its first place.
  lemma {:induction false} IndexOfFinds(hs: seq<Holder>, id: nat, from: nat, i: nat)
    requires from <= i < |hs| && hs[i].id == id
    ensures IndexOf(hs, id, from) <= i
    decreases i - from
  {
    if hs[from].id != id { IndexOfFinds(hs, id, from + 1, i); }
  }

  function Without(hs: seq<Holder>, at: nat): (r: seq<Holder>)
    requires at < |hs|
  {
    hs[..at] + hs[at + 1..]
  }

  // The first oldest general holder among the first n, or |hs|.
  function OldestGeneral(hs: seq<Holder>, n: nat): (at: nat)
    requires n <= |hs|
    ensures at < n || at == |hs|
    ensures at < |hs| ==> hs[at].kind.General?
  {
    if n == 0 then |hs| else
      var best := OldestGeneral(hs, n - 1);
      if hs[n - 1].kind.General? && (best == |hs| || hs[n - 1].since < hs[best].since) then n - 1 else best
  }

  // No general holder is older, and none before it is as old.
  lemma {:induction false} NoneIsOlder(hs: seq<Holder>, n: nat, i: nat)
    requires i < n <= |hs| && hs[i].kind.General?
    ensures var at := OldestGeneral(hs, n);
      at < n && hs[at].since <= hs[i].since && (i < at ==> hs[at].since < hs[i].since)
  {
    if i < n - 1 { NoneIsOlder(hs, n - 1, i); }
  }

  // ---- Operations ----

  function Registered(p: Pool, kind: Kind, now: nat, thread: nat): Pool {
    p.(holders := p.holders + [Holder(p.nextId + 1, now, thread, kind)], nextId := p.nextId + 1)
  }

  function Released(p: Pool, id: nat): Pool {
    var at := IndexOf(p.holders, id);
    if at == |p.holders| then p else
      var q := p.(holders := Without(p.holders, at), released := p.released + [id]);
      match p.holders[at].kind
      case General(heavy) =>
        q.(general := Minus(p.general, 1), heavy := if heavy then Minus(p.heavy, 1) else p.heavy)
      case GitBand => q.(gitBand := Minus(p.gitBand, 1))
      case Blocking => q.(blocking := Minus(p.blocking, 1))
  }

  // The holder the over-age rule releases now: the oldest general one, old
  // enough, while fewer dispatches are counted than there are slots.
  function OverAge(p: Pool, now: nat, minHeld: nat): Option<nat> {
    if p.general + p.gitBand + p.blocking >= p.slots then None else
      var at := OldestGeneral(p.holders, |p.holders|);
      if at == |p.holders| || Minus(now, p.holders[at].since) < minHeld then None
      else Some(p.holders[at].id)
  }

  function AdmitOutcome(p: Pool, op: Op): Outcome
    requires op.Admit? || op.AdmitBlocking?
  {
    match op
    case Admit(cost, gitLane, blockingVerb, now, thread) =>
      if cost.Short? || p.slots < 2 || blockingVerb then Unmetered
      else if (cost.Heavy? ==> p.heavy < HeavyLimit(p.slots)) && p.general < GeneralLimit(p.slots)
      then Admitted(p.nextId + 1, General(cost.Heavy?))
      else if !cost.Heavy? && gitLane && p.gitBand < GitBandLimit(p.slots)
      then Admitted(p.nextId + 1, GitBand)
      else Waiting
    case AdmitBlocking(blockingVerb, now, thread) =>
      if !blockingVerb || p.slots < 2 then Unmetered
      else if p.blocking < BlockingLimit(p.slots) then Admitted(p.nextId + 1, Kind.Blocking)
      else Waiting
  }

  function Counted(p: Pool, kind: Kind): Pool {
    match kind
    case General(heavy) => p.(general := p.general + 1, heavy := if heavy then p.heavy + 1 else p.heavy)
    case GitBand => p.(gitBand := p.gitBand + 1)
    case Blocking => p.(blocking := p.blocking + 1)
  }

  function AdmitStep(p: Pool, op: Op): Pool
    requires op.Admit? || op.AdmitBlocking?
  {
    match AdmitOutcome(p, op)
    case Admitted(id, kind) => Registered(Counted(p, kind), kind, op.now, op.thread)
    case _ => p
  }

  function Reclaimed(p: Pool, now: nat, minHeld: nat): Pool {
    match OverAge(p, now, minHeld)
    case None => p
    case Some(id) => Released(p, id)
  }

  function Step(p: Pool, op: Op): Pool {
    match op
    case Release(id) => Released(p, id)
    case ReleaseOverAge(now, minHeld) => Reclaimed(p, now, minHeld)
    case Admit(_, _, _, _, _) => AdmitStep(p, op)
    case AdmitBlocking(_, _, _) => AdmitStep(p, op)
  }

  // ---- The invariant ----

  ghost predicate DistinctIds(hs: seq<Holder>) {
    forall i, j :: 0 <= i < j < |hs| ==> hs[i].id != hs[j].id
  }

  ghost predicate Holds(hs: seq<Holder>, id: nat) {
    exists i :: 0 <= i < |hs| && hs[i].id == id
  }

  // Every counter is the number of holders of its band.
  ghost predicate CountersAgree(p: Pool) {
    && p.general == Count(p.holders, InGeneral)
    && p.heavy == Count(p.holders, InHeavy)
    && p.gitBand == Count(p.holders, InGitBand)
    && p.blocking == Count(p.holders, InBlocking)
  }

  predicate Known(nextId: nat, id: nat) {
    1 <= id <= nextId
  }

  // Every admission ever made is either still held or was released once.
  ghost predicate Accounted(holders: seq<Holder>, nextId: nat, released: seq<nat>) {
    && DistinctIds(holders)
    && Distinct(released)
    && (forall i :: 0 <= i < |holders| ==> Known(nextId, holders[i].id) && holders[i].id !in released)
    && (forall id :: id in released ==> Known(nextId, id))
    && (forall id :: Known(nextId, id) ==> Holds(holders, id) || id in released)
  }

  ghost predicate HeldOrReleasedOnce(p: Pool) {
    Accounted(p.holders, p.nextId, p.released)
  }

  predicate WithinLimits(p: Pool) {
    && p.general <= GeneralLimit(p.slots)
    && p.heavy <= HeavyLimit(p.slots)
    && p.gitBand <= GitBandLimit(p.slots)
    && p.blocking <= BlockingLimit(p.slots)
  }

  ghost predicate Good(p: Pool) {
    CountersAgree(p) && HeldOrReleasedOnce(p) && WithinLimits(p)
  }

  lemma CountAppend(hs: seq<Holder>, h: Holder, band: Band)
    ensures Count(hs + [h], band) == Count(hs, band) + (if InBand(h.kind, band) then 1 else 0)
  {
    assert (hs + [h])[..|hs|] == hs;
  }

  lemma {:induction false} CountWithout(hs: seq<Holder>, at: nat, band: Band)
    requires at < |hs|
    ensures Count(Without(hs, at), band) == Count(hs, band) - (if InBand(hs[at].kind, band) then 1 else 0)
    decreases |hs|
  {
    var last := |hs| - 1;
    if at == last {
      assert Without(hs, at) == hs[..last];
    } else {
      CountWithout(hs[..last], at, band);
      assert Without(hs, at) == Without(hs[..last], at) + [hs[last]];
      CountAppend(Without(hs[..last], at), hs[last], band);
    }
  }

  // No saturating subtraction ever saturates: the counter of a held band is positive.
  lemma ReleaseNeverSaturates(p: Pool, id: nat)
    requires Good(p) && IndexOf(p.holders, id) < |p.holders|
    ensures var kind := p.holders[IndexOf(p.holders, id)].kind;
      && (kind.General? ==> p.general >= 1)
      && (kind.General? && kind.heavy ==> p.heavy >= 1)
      && (kind.GitBand? ==> p.gitBand >= 1)
      && (kind.Blocking? ==> p.blocking >= 1)
  {
    var at := IndexOf(p.holders, id);
    CountWithout(p.holders, at, InGeneral);
    CountWithout(p.holders, at, InHeavy);
    CountWithout(p.holders, at, InGitBand);
    CountWithout(p.holders, at, InBlocking);
  }

  lemma RegisterKeepsIdentity(p: Pool, kind: Kind, now: nat, thread: nat)
    requires HeldOrReleasedOnce(p)
    ensures HeldOrReleasedOnce(Registered(p, kind, now, thread))
  {
    var q := Registered(p, kind, now, thread);
    forall id | Known(q.nextId, id) ensures Holds(q.holders, id) || id in q.released {
      if id == q.nextId {
        assert q.holders[|p.holders|].id == id;
      } else {
        assert Known(p.nextId, id);
        if Holds(p.holders, id) {
          var i :| 0 <= i < |p.holders| && p.holders[i].id == id;
          assert q.holders[i].id == id;
        }
      }
    }
  }

  lemma AdmitKeepsCounters(p: Pool, kind: Kind, now: nat, thread: nat)
    requires CountersAgree(p)
    ensures CountersAgree(Registered(Counted(p, kind), kind, now, thread))
  {
    var h := Holder(p.nextId + 1, now, thread, kind);
    CountAppend(p.holders, h, InGeneral);
    CountAppend(p.holders, h, InHeavy);
    CountAppend(p.holders, h, InGitBand);
    CountAppend(p.holders, h, InBlocking);
  }

  lemma AdmitKeepsGood(p: Pool, kind: Kind, now: nat, thread: nat)
    requires Good(p)
    requires WithinLimits(Counted(p, kind))
    ensures Good(Registered(Counted(p, kind), kind, now, thread))
  {
    AdmitKeepsCounters(p, kind, now, thread);
    RegisterKeepsIdentity(Counted(p, kind), kind, now, thread);
  }

  lemma WithoutMembers(hs: seq<Holder>, at: nat, id: nat)
    requires at < |hs| && DistinctIds(hs)
    ensures DistinctIds(Without(hs, at))
    ensures Holds(Without(hs, at), id) <==> Holds(hs, id) && id != hs[at].id
  {
    var q := Without(hs, at);
    assert forall i :: 0 <= i < |q| ==> q[i] == hs[if i < at then i else i + 1];
    if Holds(hs, id) && id != hs[at].id {
      var i :| 0 <= i < |hs| && hs[i].id == id;
      assert q[if i < at then i else i - 1].id == id;
    }
  }

  lemma AppendMembers(s: seq<nat>, x: nat, id: nat)
    requires Distinct(s) && x !in s
    ensures Distinct(s + [x])
    ensures id in s + [x] <==> id in s || id == x
  {
    assert (s + [x])[|s|] == x;
  }

  lemma ReleaseKeepsIdentity(holders: seq<Holder>, nextId: nat, released: seq<nat>, at: nat)
    requires Accounted(holders, nextId, released) && at < |holders|
    ensures Accounted(Without(holders, at), nextId, released + [holders[at].id])
  {
    var gone := holders[at].id;
    var q, gone' := Without(holders, at), released + [gone];
    assert Holds(holders, gone);
    WithoutMembers(holders, at, gone);
    AppendMembers(released, gone, gone);
    forall i | 0 <= i < |q| ensures Known(nextId, q[i].id) && q[i].id !in gone' {
      assert q[i] == holders[if i < at then i else i + 1] && Holds(q, q[i].id);
      WithoutMembers(holders, at, q[i].id);
      AppendMembers(released, gone, q[i].id);
    }
    forall id | Known(nextId, id) ensures Holds(q, id) || id in gone' {
      WithoutMembers(holders, at, id);
      AppendMembers(released, gone, id);
    }
    forall id | id in gone' ensures Known(nextId, id) {
      AppendMembers(released, gone, id);
    }
  }

  lemma ReleaseKeepsCounters(p: Pool, id: nat)
    requires CountersAgree(p)
    ensures CountersAgree(Released(p, id))
  {
    var at := IndexOf(p.holders, id);
    if at < |p.holders| {
      CountWithout(p.holders, at, InGeneral);
      CountWithout(p.holders, at, InHeavy);
      CountWithout(p.holders, at, InGitBand);
      CountWithout(p.holders, at, InBlocking);
    }
  }

  lemma ReleaseKeepsLimits(p: Pool, id: nat)
    requires WithinLimits(p)
    ensures WithinLimits(Released(p, id))
  {
  }

  lemma ReleaseKeepsGood(p: Pool, id: nat)
    requires Good(p)
    ensures Good(Released(p, id)) && Released(p, id).slots == p.slots
  {
    var at := IndexOf(p.holders, id);
    if at < |p.holders| {
      ReleaseKeepsCounters(p, id);
      ReleaseKeepsIdentity(p.holders, p.nextId, p.released, at);
      ReleaseKeepsLimits(p, id);
    }
  }

  // What is admitted still fits its band.
  lemma AdmittedFits(p: Pool, op: Op)
    requires WithinLimits(p) && (op.Admit? || op.AdmitBlocking?) && AdmitOutcome(p, op).Admitted?
    ensures WithinLimits(Counted(p, AdmitOutcome(p, op).kind))
  {
  }

  lemma AdmissionKeepsGood(p: Pool, op: Op)
    requires Good(p) && (op.Admit? || op.AdmitBlocking?)
    ensures Good(AdmitStep(p, op)) && AdmitStep(p, op).slots == p.slots
  {
    if AdmitOutcome(p, op).Admitted? {
      AdmittedFits(p, op);
      AdmitKeepsGood(p, AdmitOutcome(p, op).kind, op.now, op.thread);
    }
  }

  lemma OverAgeKeepsGood(p: Pool, now: nat, minHeld: nat)
    requires Good(p)
    ensures Good(Reclaimed(p, now, minHeld)) && Reclaimed(p, now, minHeld).slots == p.slots
  {
    if OverAge(p, now, minHeld).Some? { ReleaseKeepsGood(p, OverAge(p, now, minHeld).value); }
  }

  lemma StepKeepsGood(p: Pool, op: Op)
    requires Good(p)
    ensures Good(Step(p, op)) && Step(p, op).slots == p.slots
  {
    match op
    case Release(id) => ReleaseKeepsGood(p, id);
    case ReleaseOverAge(now, minHeld) => OverAgeKeepsGood(p, now, minHeld);
    case Admit(_, _, _, _, _) => AdmissionKeepsGood(p, op);
    case AdmitBlocking(_, _, _) => AdmissionKeepsGood(p, op);
  }

  function Empty(slots: nat): Pool {
    Pool(slots, 0, 0, 0, 0, [], 0, [])
  }

  function RunTo(slots: nat, ops: seq<Op>, n: nat): Pool
    requires n <= |ops|
  {
    if n == 0 then Empty(slots) else Step(RunTo(slots, ops, n - 1), ops[n - 1])
  }

  // Main result: under every interleaving of admissions and the three releases
  // the counters are the holders, nobody is released twice and every band stays
  // within its limit.
  lemma {:induction false} ReachableIsGood(slots: nat, ops: seq<Op>, n: nat)
    requires n <= |ops|
    ensures Good(RunTo(slots, ops, n)) && RunTo(slots, ops, n).slots == slots
  {
    if n > 0 {
      ReachableIsGood(slots, ops, n - 1);
      StepKeepsGood(RunTo(slots, ops, n - 1), ops[n - 1]);
    }
  }

  // With 8 slots or more one slot is always left for short work.
  lemma OneSlotLeft(slots: nat, ops: seq<Op>, n: nat)
    requires n <= |ops| && slots >= 8
    ensures RunTo(slots, ops, n).general + RunTo(slots, ops, n).gitBand <= slots - 1
  {
    ReachableIsGood(slots, ops, n);
    BandsLeaveOneSlot(slots);
  }

  lemma SecondReleaseDoesNothing(p: Pool, id: nat)
    requires HeldOrReleasedOnce(p) && id in p.released
    ensures Released(p, id) == p
  {
  }

  // `q` was reached from `p` with nothing taken back.
  predicate ReleasedSince(p: Pool, q: Pool) {
    p.released <= q.released
  }

  lemma ReleaseKeepsReleased(p: Pool, id: nat)
    ensures ReleasedSince(p, Released(p, id))
  {
  }

  lemma AdmissionKeepsReleased(p: Pool, op: Op)
    requires op.Admit? || op.AdmitBlocking?
    ensures ReleasedSince(p, AdmitStep(p, op))
  {
  }

  lemma StepKeepsReleased(p: Pool, op: Op)
    ensures ReleasedSince(p, Step(p, op))
  {
    match op
    case Release(id) => ReleaseKeepsReleased(p, id);
    case ReleaseOverAge(now, minHeld) =>
      if OverAge(p, now, minHeld).Some? { ReleaseKeepsReleased(p, OverAge(p, now, minHeld).value); }
    case Admit(_, _, _, _, _) => AdmissionKeepsReleased(p, op);
    case AdmitBlocking(_, _, _) => AdmissionKeepsReleased(p, op);
  }

  lemma ReleasedGoesOn(p: Pool, q: Pool, next: Pool)
    requires ReleasedSince(p, q) && ReleasedSince(q, next)
    ensures ReleasedSince(p, next)
  {
    assert p.released <= next.released;
  }

  lemma {:induction false} ReleasedOnlyGrows(slots: nat, ops: seq<Op>, m: nat, n: nat)
    requires m <= n <= |ops|
    ensures ReleasedSince(RunTo(slots, ops, m), RunTo(slots, ops, n))
    decreases n
  {
    if m < n {
      var q := RunTo(slots, ops, n - 1);
      ReleasedOnlyGrows(slots, ops, m, n - 1);
      StepKeepsReleased(q, ops[n - 1]);
      ReleasedGoesOn(RunTo(slots, ops, m), q, Step(q, ops[n - 1]));
    }
  }

  // Whatever happens later, a released holder is never held again and a second
  // release of it changes nothing.
  lemma ReleasedStaysReleased(slots: nat, ops: seq<Op>, m: nat, n: nat, id: nat)
    requires m <= n <= |ops|
    requires id in RunTo(slots, ops, m).released
    ensures Released(RunTo(slots, ops, n), id) == RunTo(slots, ops, n)
  {
    ReleasedOnlyGrows(slots, ops, m, n);
    ReachableIsGood(slots, ops, n);
    SecondReleaseDoesNothing(RunTo(slots, ops, n), id);
  }

  function GitLaneRequest(): Op {
    Admit(Cheap, true, false, 0, 0)
  }

  lemma {:induction false} FillGeneral(slots: nat, ops: seq<Op>, k: nat)
    requires 2 <= slots && k <= |ops| && k <= GeneralLimit(slots)
    requires forall i :: 0 <= i < |ops| ==> ops[i] == GitLaneRequest()
    ensures var p := RunTo(slots, ops, k);
      p.slots == slots && p.general == k && p.gitBand == 0
  {
    if k > 0 { FillGeneral(slots, ops, k - 1); }
  }

  // The bound of 8 is sharp: a smaller pool can be filled to its last slot.
  lemma SmallPoolFills(slots: nat)
    requires 2 <= slots < 8
    ensures var p := RunTo(slots, seq(slots, _ => GitLaneRequest()), slots);
      p.general + p.gitBand == slots
  {
    var ops := seq(slots, _ => GitLaneRequest());
    FillGeneral(slots, ops, slots - 1);
    assert GeneralLimit(slots) == slots - 1;
  }

  // ---- What is admitted and reclaimed, in the fields ----

  lemma LimitsAre(n: nat)
    requires n >= 2
    ensures GeneralLimit(n) == n - (if n < 8 then 1 else n / 4) && BlockingLimit(n) == GeneralLimit(n)
    ensures HeavyLimit(n) == if n < 4 then 1 else if n == 4 then 2 else 3
    ensures GitBandLimit(n) == if n < 12 then 1 else n / 4 - 1
  {
  }

  // A general admission leaves a quarter of the slots, at least one, to short
  // verbs; a heavy one is besides one of at most three.
  ghost predicate GeneralRoom(p: Pool, heavy: bool) {
    && p.general < p.slots - (if p.slots < 8 then 1 else p.slots / 4)
    && (heavy ==> p.heavy < if p.slots < 4 then 1 else if p.slots == 4 then 2 else 3)
  }

  // A quarter of the slots less one, at least one, is the git lane's.
  ghost predicate GitRoom(p: Pool) {
    p.gitBand < if p.slots < 12 then 1 else p.slots / 4 - 1
  }

  ghost predicate Metered(p: Pool, cost: CostClass, blockingVerb: bool) {
    !cost.Short? && p.slots >= 2 && !blockingVerb
  }

  // Main result: whatever the interleaving, no band outgrows its share of the
  // slots, and never more than three heavy dispatches are counted.
  lemma BandsStayWithin(slots: nat, ops: seq<Op>, n: nat)
    requires slots >= 2 && n <= |ops|
    ensures var p := RunTo(slots, ops, n);
      && p.general <= slots - (if slots < 8 then 1 else slots / 4)
      && p.blocking <= slots - (if slots < 8 then 1 else slots / 4)
      && p.heavy <= 3 && (slots < 4 ==> p.heavy <= 1) && (slots == 4 ==> p.heavy <= 2)
      && p.gitBand <= if slots < 12 then 1 else slots / 4 - 1
  {
    ReachableIsGood(slots, ops, n);
    LimitsAre(slots);
  }

  // Which band admits a dispatch: the git band is only for cheap ones on the git
  // lane, and only when the general band is full.
  ghost predicate AdmitsInBand(p: Pool, cost: CostClass, gitLane: bool, blockingVerb: bool, outcome: Outcome) {
    && (outcome.Unmetered? <==> !Metered(p, cost, blockingVerb))
    && (outcome == Admitted(p.nextId + 1, General(cost.Heavy?)) <==>
      Metered(p, cost, blockingVerb) && GeneralRoom(p, cost.Heavy?))
    && (outcome == Admitted(p.nextId + 1, GitBand) <==>
      Metered(p, cost, blockingVerb) && cost.Cheap? && gitLane && !GeneralRoom(p, false) && GitRoom(p))
    && (outcome.Admitted? ==> outcome.holder == p.nextId + 1 && outcome.kind in {General(cost.Heavy?), GitBand})
  }

  // Main result: a dispatch is admitted in exactly that band.
  lemma AdmitsExactly(p: Pool, cost: CostClass, gitLane: bool, blockingVerb: bool, now: nat, thread: nat)
    ensures AdmitsInBand(p, cost, gitLane, blockingVerb,
                         AdmitOutcome(p, Admit(cost, gitLane, blockingVerb, now, thread)))
  {
    if p.slots >= 2 { LimitsAre(p.slots); }
  }

  ghost predicate AdmitsBlocking(p: Pool, blockingVerb: bool, outcome: Outcome) {
    && (outcome.Unmetered? <==> !blockingVerb || p.slots < 2)
    && (outcome.Admitted? <==>
      blockingVerb && p.slots >= 2 && p.blocking < p.slots - (if p.slots < 8 then 1 else p.slots / 4))
    && (outcome.Admitted? ==> outcome == Admitted(p.nextId + 1, Kind.Blocking))
  }

  lemma AdmitsBlockingExactly(p: Pool, blockingVerb: bool, now: nat, thread: nat)
    ensures AdmitsBlocking(p, blockingVerb, AdmitOutcome(p, AdmitBlocking(blockingVerb, now, thread)))
  {
    if p.slots >= 2 { LimitsAre(p.slots); }
  }

  lemma {:induction false} BandsMakeUp(hs: seq<Holder>)
    ensures Count(hs, InGeneral) + Count(hs, InGitBand) + Count(hs, InBlocking) == |hs|
  {
    if hs != [] { BandsMakeUp(hs[..|hs| - 1]); }
  }

  // The first of the general holders that are held longest.
  ghost predicate HeldLongest(hs: seq<Holder>, i: nat) {
    && i < |hs| && hs[i].kind.General?
    && forall j :: 0 <= j < |hs| && hs[j].kind.General? ==>
      hs[i].since <= hs[j].since && (j < i ==> hs[i].since < hs[j].since)
  }

  // A hold is reclaimed while there are fewer holders than slots and the general
  // holder held longest has been held for `minHeld`; it is that one.
  ghost predicate ReclaimsLongest(p: Pool, now: nat, minHeld: nat, reclaimed: Option<nat>) {
    && (forall i: nat :: HeldLongest(p.holders, i) ==>
      (reclaimed.Some? <==>
        |p.holders| < p.slots && (minHeld == 0 || p.holders[i].since + minHeld <= now)))
    && (reclaimed.Some? ==> exists i: nat :: HeldLongest(p.holders, i) && p.holders[i].id == reclaimed.value)
  }

  // Main result: the over-age rule reclaims exactly then.
  lemma ReclaimsExactly(p: Pool, now: nat, minHeld: nat)
    requires CountersAgree(p)
    ensures ReclaimsLongest(p, now, minHeld, OverAge(p, now, minHeld))
  {
    BandsMakeUp(p.holders);
    var at := OldestGeneral(p.holders, |p.holders|);
    forall j | 0 <= j < |p.holders| && p.holders[j].kind.General?
      ensures at < |p.holders| && p.holders[at].since <= p.holders[j].since
      ensures j < at ==> p.holders[at].since < p.holders[j].since
    {
      NoneIsOlder(p.holders, |p.holders|, j);
    }
    assert forall i: nat :: HeldLongest(p.holders, i) ==> i == at;
    if at < |p.holders| { assert HeldLongest(p.holders, at); }
  }

  // ---- The pool's counters, changed in place ----

  function ReleasedAll(p: Pool, ids: seq<nat>, n: nat): Pool
    requires n <= |ids|
  {
    if n == 0 then p else Released(ReleasedAll(p, ids, n - 1), ids[n - 1])
  }

  lemma {:induction false} ReleasedAllKeepsGood(p: Pool, ids: seq<nat>, n: nat)
    requires Good(p) && n <= |ids|
    ensures Good(ReleasedAll(p, ids, n)) && ReleasedAll(p, ids, n).slots == p.slots
  {
    if n > 0 {
      ReleasedAllKeepsGood(p, ids, n - 1);
      ReleaseKeepsGood(ReleasedAll(p, ids, n - 1), ids[n - 1]);
    }
  }

  method FindOldest(holders: seq<Holder>) returns (oldest: nat)
    ensures oldest == OldestGeneral(holders, |holders|)
  {
    oldest := |holders|;
    for i := 0 to |holders|
      invariant oldest == OldestGeneral(holders, i)
    {
      if holders[i].kind.General? && (oldest == |holders| || holders[i].since < holders[oldest].since) {
        oldest := i;
      }
    }
  }

  class AdmissionTable {
    const slots: nat
    var heavyInflight: nat
    var nonShortInflight: nat
    var blockingInflight: nat
    var gitBandInflight: nat
    var holders: seq<Holder>
    var nextHolderId: nat
    ghost var released: seq<nat>

    ghost function Snapshot(): Pool
      reads this
    {
      Pool(slots, nonShortInflight, heavyInflight, gitBandInflight, blockingInflight, holders, nextHolderId, released)
    }

    ghost predicate Valid()
      reads this
    {
      Good(Snapshot())
    }

    constructor (slots: nat)
      ensures Valid() && Snapshot() == Empty(slots)
    {
      this.slots := slots;
      heavyInflight, nonShortInflight, blockingInflight, gitBandInflight := 0, 0, 0, 0;
      holders, nextHolderId, released := [], 0, [];
    }

    method RegisterHolder(kind: Kind, now: nat, thread: nat) returns (id: nat)
      modifies this`holders, this`nextHolderId
      ensures Snapshot() == Registered(old(Snapshot()), kind, now, thread) && id == nextHolderId
    {
      nextHolderId := nextHolderId + 1;
      id := nextHolderId;
      holders := holders + [Holder(id, now, thread, kind)];
    }

    // False when the holder was already released by another path.
    method ReleaseHolder(id: nat) returns (found: bool)
      modifies this
      ensures Snapshot() == Released(old(Snapshot()), id)
      ensures found <==> IndexOf(old(holders), id) < |old(holders)|
      ensures found <==> Holds(old(holders), id)
    {
      var at := IndexOf(holders, id);
      if i :| 0 <= i < |holders| && holders[i].id == id { IndexOfFinds(holders, id, 0, i); }
      if at == |holders| { return false; }
      var kind := holders[at].kind;
      holders, released := Without(holders, at), released + [id];
      match kind {
        case General(heavy) =>
          nonShortInflight := Minus(nonShortInflight, 1);
          if heavy { heavyInflight := Minus(heavyInflight, 1); }
        case GitBand => gitBandInflight := Minus(gitBandInflight, 1);
        case Blocking => blockingInflight := Minus(blockingInflight, 1);
      }
      found := true;
    }

    // Counts the admission in its band and registers its holder.
    method Take(kind: Kind, now: nat, thread: nat) returns (id: nat)
      modifies this
      ensures Snapshot() == Registered(Counted(old(Snapshot()), kind), kind, now, thread)
      ensures id == old(nextHolderId) + 1
    {
      match kind {
        case General(heavy) =>
          nonShortInflight := nonShortInflight + 1;
          if heavy { heavyInflight := heavyInflight + 1; }
        case GitBand => gitBandInflight := gitBandInflight + 1;
        case Blocking => blockingInflight := blockingInflight + 1;
      }
      id := RegisterHolder(kind, now, thread);
    }

    // One round of each admission under the lock.
    method AdmitNow(cost: CostClass, gitLane: bool, blockingVerb: bool, now: nat, thread: nat)
      returns (outcome: Outcome)
      modifies this
      ensures Snapshot() == AdmitStep(old(Snapshot()), Admit(cost, gitLane, blockingVerb, now, thread))
      ensures outcome == AdmitOutcome(old(Snapshot()), Admit(cost, gitLane, blockingVerb, now, thread))
    {
      if cost.Short? || slots < 2 || blockingVerb { return Unmetered; }
      var isHeavy := cost.Heavy?;
      if (!isHeavy || heavyInflight < HeavyLimit(slots)) && nonShortInflight < GeneralLimit(slots) {
        var id := Take(General(isHeavy), now, thread);
        outcome := Admitted(id, General(isHeavy));
      } else if !isHeavy && gitLane && gitBandInflight < GitBandLimit(slots) {
        var id := Take(GitBand, now, thread);
        outcome := Admitted(id, GitBand);
      } else {
        outcome := Waiting;
      }
    }

    method AdmitBlockingNow(blockingVerb: bool, now: nat, thread: nat) returns (outcome: Outcome)
      modifies this
      ensures Snapshot() == AdmitStep(old(Snapshot()), AdmitBlocking(blockingVerb, now, thread))
      ensures outcome == AdmitOutcome(old(Snapshot()), AdmitBlocking(blockingVerb, now, thread))
    {
      if !blockingVerb || slots < 2 { return Unmetered; }
      if blockingInflight < BlockingLimit(slots) {
        var id := Take(Kind.Blocking, now, thread);
        outcome := Admitted(id, Kind.Blocking);
      } else {
        outcome := Waiting;
      }
    }

    method TryAdmit(cost: CostClass, gitLane: bool, blockingVerb: bool, now: nat, thread: nat)
      returns (outcome: Outcome)
      requires Valid()
      modifies this
      ensures Valid() && Snapshot() == Step(old(Snapshot()), Admit(cost, gitLane, blockingVerb, now, thread))
      ensures outcome == AdmitOutcome(old(Snapshot()), Admit(cost, gitLane, blockingVerb, now, thread))
      ensures AdmitsInBand(old(Snapshot()), cost, gitLane, blockingVerb, outcome)
    {
      AdmitsExactly(Snapshot(), cost, gitLane, blockingVerb, now, thread);
      AdmissionKeepsGood(Snapshot(), Admit(cost, gitLane, blockingVerb, now, thread));
      outcome := AdmitNow(cost, gitLane, blockingVerb, now, thread);
    }

    method TryAdmitBlocking(blockingVerb: bool, now: nat, thread: nat) returns (outcome: Outcome)
      requires Valid()
      modifies this
      ensures Valid() && Snapshot() == Step(old(Snapshot()), AdmitBlocking(blockingVerb, now, thread))
      ensures outcome == AdmitOutcome(old(Snapshot()), AdmitBlocking(blockingVerb, now, thread))
      ensures AdmitsBlocking(old(Snapshot()), blockingVerb, outcome)
    {
      AdmitsBlockingExactly(Snapshot(), blockingVerb, now, thread);
      AdmissionKeepsGood(Snapshot(), AdmitBlocking(blockingVerb, now, thread));
      outcome := AdmitBlockingNow(blockingVerb, now, thread);
    }

    method ReleaseOverAgeHold(now: nat, minHeld: nat) returns (id: Option<nat>)
      requires Valid()
      modifies this
      ensures Valid() && Snapshot() == Step(old(Snapshot()), ReleaseOverAge(now, minHeld))
      ensures id == OverAge(old(Snapshot()), now, minHeld)
      ensures ReclaimsLongest(old(Snapshot()), now, minHeld, id)
    {
      ghost var p := Snapshot();
      ReclaimsExactly(p, now, minHeld);
      OverAgeKeepsGood(p, now, minHeld);
      if nonShortInflight + gitBandInflight + blockingInflight >= slots { return None; }
      var oldest := FindOldest(holders);
      if oldest == |holders| || Minus(now, holders[oldest].since) < minHeld { return None; }
      id := Some(holders[oldest].id);
      var _ := ReleaseHolder(holders[oldest].id);
    }

    // The first of the two sections that release a dead thread's holders.
    method HeldByThread(thread: nat) returns (ids: seq<nat>)
      ensures forall id :: id in ids <==>
        exists i :: 0 <= i < |holders| && holders[i].id == id && holders[i].thread == thread
    {
      ids := [];
      for i := 0 to |holders|
        invariant forall id :: id in ids <==>
          exists j :: 0 <= j < i && holders[j].id == id && holders[j].thread == thread
      {
        if holders[i].thread == thread { ids := ids + [holders[i].id]; }
      }
    }

    // The second section; some of the ids may have been released meanwhile.
    method ReleaseEach(ids: seq<nat>) returns (count: nat)
      requires Valid()
      modifies this
      ensures Valid() && Snapshot() == ReleasedAll(old(Snapshot()), ids, |ids|)
      ensures count == |released| - |old(released)|
    {
      ghost var before := Snapshot();
      count := 0;
      for i := 0 to |ids|
        invariant Snapshot() == ReleasedAll(before, ids, i)
        invariant count == |released| - |before.released|
      {
        var found := ReleaseHolder(ids[i]);
        if found { count := count + 1; }
      }
      ReleasedAllKeepsGood(before, ids, |ids|);
    }
  }
}
