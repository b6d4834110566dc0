// The deferred store swap of a plugin pool: a request empties the free slots with the old bytes and records a debt
// for each busy one; a dispatch that ends on bytes with a debt empties its slot and pays one.
module StoreSwap {
  import opened Wrappers

  // A request walks the slots one lock at a time and records the debts afterwards.
  // Nothing is locked across the walk, so any two steps may interleave.

  type Hash = nat

  // Free: nobody holds the slot's lock. The other phases belong to its holder:
  // Held may dispatch, Finished only has to let go, Decided saw a debt and will
  // empty the slot, Emptied did so and will pay, Consumed paid for a failed
  // dispatch and will empty the slot, Refilling did so and may install again, and
  // Retrying dispatches the failed call once more on what it installed.
  datatype Phase = Free | Held | Finished | Decided | Emptied(hash: Hash) | Consumed | Refilling | Retrying

  datatype Slot = Slot(content: Option<Hash>, phase: Phase)

  datatype Scan = NotStarted | Scanning(next: nat, deferred: nat) | Returned

  datatype Pool = Pool(slots: seq<Slot>, pending: map<Hash, nat>, scan: Scan)

  datatype Op =
    // the request for the old bytes
    | Begin
    | ScanSlot
    | Record
    // the holder of slot i
    | Acquire(i: nat)
    | Install(i: nat, hash: Hash)
    | Complete(i: nat)
    | Empty(i: nat)
    | Pay(i: nat)
    | FailPay(i: nat)
    | FailEmpty(i: nat)
    | RetryDone(i: nat)
    | Discard(i: nat)
    | Unlock(i: nat)
    // anybody else
    | EvictFree(i: nat)
    | OtherDebt(hash: Hash, deferred: nat)
    | NoteCurrent(hash: Hash)

  function Owed(pending: map<Hash, nat>, hash: Hash): nat {
    if hash in pending then pending[hash] else 0
  }

  function Charged(pending: map<Hash, nat>, hash: Hash, n: nat): map<Hash, nat> {
    if n == 0 then pending else pending[hash := Owed(pending, hash) + n]
  }

  // One debt paid; a hash without a debt is left alone.
  function Paid(pending: map<Hash, nat>, hash: Hash): map<Hash, nat> {
    if hash !in pending then pending
    else if pending[hash] <= 1 then pending - {hash}
    else pending[hash := pending[hash] - 1]
  }

  predicate OnSlot(op: Op) {
    !(op.Begin? || op.ScanSlot? || op.Record? || op.OtherDebt? || op.NoteCurrent?)
  }

  // When a step can happen. Once the request has begun nobody installs the old
  // bytes again and nobody declares them current.
  predicate Enabled(old_: Hash, p: Pool, op: Op) {
    && (OnSlot(op) ==> op.i < |p.slots|)
    && match op
       case Begin => p.scan.NotStarted?
       case ScanSlot => p.scan.Scanning? && p.scan.next < |p.slots|
       case Record => p.scan.Scanning? && p.scan.next == |p.slots|
       case Acquire(i) => p.slots[i].phase.Free?
       case Install(i, hash) =>
         (p.slots[i] == Slot(None, Held) || p.slots[i] == Slot(None, Refilling)) && (p.scan.NotStarted? || hash != old_)
       case Complete(i) => p.slots[i].phase.Held? && p.slots[i].content.Some?
       case Empty(i) => p.slots[i].phase.Decided? && p.slots[i].content.Some?
       case Pay(i) => p.slots[i].phase.Emptied?
       case FailPay(i) => p.slots[i].phase.Held? && p.slots[i].content.Some?
       case FailEmpty(i) => p.slots[i].phase.Consumed?
       case RetryDone(i) => p.slots[i].phase.Retrying?
       case Discard(i) => p.slots[i].phase.Held? || p.slots[i].phase.Retrying?
       case Unlock(i) =>
         var phase := p.slots[i].phase;
         phase.Held? || phase.Finished? || phase.Refilling? || phase.Retrying?
       case EvictFree(i) => p.slots[i].phase.Free?
       case OtherDebt(hash, deferred) => true
       case NoteCurrent(hash) => p.scan.NotStarted? || hash != old_
  }

  function SlotStep(p: Pool, op: Op): Slot
    requires OnSlot(op) && op.i < |p.slots|
  {
    var s := p.slots[op.i];
    match op
    case Acquire(i) => s.(phase := Held)
    case Install(i, hash) => Slot(Some(hash), if s.phase.Refilling? then Retrying else s.phase)
    case Complete(i) =>
      s.(phase := if s.content.Some? && s.content.value in p.pending then Decided else Finished)
    case Empty(i) => if s.content.Some? then Slot(None, Emptied(s.content.value)) else s
    case Pay(i) => s.(phase := Finished)
    case FailPay(i) => s.(phase := Consumed)
    case FailEmpty(i) => Slot(None, Refilling)
    case RetryDone(i) => s.(phase := Finished)
    case Discard(i) => Slot(None, Finished)
    case Unlock(i) => s.(phase := Free)
    case EvictFree(i) => s.(content := None)
  }

  function PendingStep(old_: Hash, p: Pool, op: Op): map<Hash, nat> {
    match op
    case Record => if p.scan.Scanning? then Charged(p.pending, old_, p.scan.deferred) else p.pending
    case Pay(i) =>
      if i < |p.slots| && p.slots[i].phase.Emptied? then Paid(p.pending, p.slots[i].phase.hash) else p.pending
    case FailPay(i) =>
      if i < |p.slots| && p.slots[i].content.Some? then Paid(p.pending, p.slots[i].content.value) else p.pending
    case OtherDebt(hash, deferred) => Charged(p.pending, hash, deferred)
    case NoteCurrent(hash) => p.pending - {hash}
    case _ => p.pending
  }

  function Step(old_: Hash, p: Pool, op: Op): Pool
    requires Enabled(old_, p, op)
  {
    var pending := PendingStep(old_, p, op);
    match op
    case Begin => Pool(p.slots, pending, Scanning(0, 0))
    case ScanSlot =>
      var i, s := p.scan.next, p.slots[p.scan.next];
      if !s.phase.Free? then Pool(p.slots, pending, Scanning(i + 1, p.scan.deferred + 1))
      else if s.content == Some(old_)
        then Pool(p.slots[i := s.(content := None)], pending, Scanning(i + 1, p.scan.deferred))
      else Pool(p.slots, pending, Scanning(i + 1, p.scan.deferred))
    case Record => Pool(p.slots, pending, Returned)
    case OtherDebt(_, _) => Pool(p.slots, pending, p.scan)
    case NoteCurrent(_) => Pool(p.slots, pending, p.scan)
    case _ => Pool(p.slots[op.i := SlotStep(p, op)], pending, p.scan)
  }

  // ---- The debt covers the slots ----

  // A slot the debt has to cover: it holds the old bytes and is not already
  // paid for, or it held them and still has to pay.
  predicate NeedsDebt(old_: Hash, s: Slot) {
    (s.content == Some(old_) && !s.phase.Consumed?) || s.phase == Emptied(old_)
  }

  function DebtNeeded(old_: Hash, slots: seq<Slot>, n: nat): nat
    requires n <= |slots|
  {
    if n == 0 then 0 else
      DebtNeeded(old_, slots, n - 1) + (if NeedsDebt(old_, slots[n - 1]) then 1 else 0)
  }

  // While the walk is under way the slots walked so far need no more than it
  // counted; once the request returned the owed count covers all slots.
  ghost predicate Good(old_: Hash, p: Pool) {
    && (forall h :: h in p.pending ==> p.pending[h] >= 1)
    && (forall i :: 0 <= i < |p.slots| && (p.slots[i].phase.Emptied? || p.slots[i].phase.Refilling?) ==>
      p.slots[i].content.None?)
    && match p.scan
       case NotStarted => true
       case Scanning(next, deferred) => next <= |p.slots| && DebtNeeded(old_, p.slots, next) <= deferred
       case Returned => DebtNeeded(old_, p.slots, |p.slots|) <= Owed(p.pending, old_)
  }

  lemma {:induction false} DebtUpdate(old_: Hash, slots: seq<Slot>, i: nat, s: Slot, n: nat)
    requires i < |slots| && n <= |slots|
    ensures DebtNeeded(old_, slots[i := s], n) == DebtNeeded(old_, slots, n) +
      (if i < n then (if NeedsDebt(old_, s) then 1 else 0) - (if NeedsDebt(old_, slots[i]) then 1 else 0) else 0)
  {
    if n > 0 { DebtUpdate(old_, slots, i, s, n - 1); }
  }

  lemma {:induction false} DebtWitness(old_: Hash, slots: seq<Slot>, i: nat, n: nat)
    requires i < n <= |slots| && NeedsDebt(old_, slots[i])
    ensures DebtNeeded(old_, slots, n) >= 1
  {
    if i < n - 1 { DebtWitness(old_, slots, i, n - 1); }
  }

  // What one slot step does to what its slot needs, against what it pays.
  lemma SlotStepBalance(old_: Hash, p: Pool, op: Op)
    requires Good(old_, p) && Enabled(old_, p, op) && OnSlot(op) && !p.scan.NotStarted?
    ensures var before, after := NeedsDebt(old_, p.slots[op.i]), NeedsDebt(old_, SlotStep(p, op));
      && (after ==> before)
      && Owed(PendingStep(old_, p, op), old_) >= Owed(p.pending, old_) - (if before && !after then 1 else 0)
  {
  }

  lemma SlotStepKeepsGood(old_: Hash, p: Pool, op: Op)
    requires Good(old_, p) && Enabled(old_, p, op) && OnSlot(op)
    ensures Good(old_, Step(old_, p, op))
  {
    var s := SlotStep(p, op);
    match p.scan
    case NotStarted =>
    case Scanning(next, _) =>
      SlotStepBalance(old_, p, op);
      DebtUpdate(old_, p.slots, op.i, s, next);
    case Returned =>
      SlotStepBalance(old_, p, op);
      DebtUpdate(old_, p.slots, op.i, s, |p.slots|);
  }

  lemma ScanKeepsGood(old_: Hash, p: Pool)
    requires Good(old_, p) && Enabled(old_, p, ScanSlot)
    ensures Good(old_, Step(old_, p, ScanSlot))
  {
    var i, s := p.scan.next, p.slots[p.scan.next];
    if s.phase.Free? {
      DebtUpdate(old_, p.slots, i, s.(content := None), i + 1);
    }
  }

  lemma StepKeepsGood(old_: Hash, p: Pool, op: Op)
    requires Good(old_, p) && Enabled(old_, p, op)
    ensures Good(old_, Step(old_, p, op))
  {
    if OnSlot(op) {
      SlotStepKeepsGood(old_, p, op);
    } else if op.ScanSlot? {
      ScanKeepsGood(old_, p);
    }
  }

  function Start(n: nat): Pool {
    Pool(seq(n, _ => Slot(None, Free)), map[], NotStarted)
  }

  function Do(old_: Hash, p: Pool, op: Op): Pool {
    if Enabled(old_, p, op) then Step(old_, p, op) else p
  }

  function RunTo(old_: Hash, p: Pool, ops: seq<Op>, n: nat): Pool
    requires n <= |ops|
  {
    if n == 0 then p else Do(old_, RunTo(old_, p, ops, n - 1), ops[n - 1])
  }

  lemma {:induction false} RunKeepsGood(old_: Hash, p: Pool, ops: seq<Op>, n: nat)
    requires n <= |ops| && Good(old_, p)
    ensures Good(old_, RunTo(old_, p, ops, n))
  {
    if n > 0 {
      RunKeepsGood(old_, p, ops, n - 1);
      var q := RunTo(old_, p, ops, n - 1);
      if Enabled(old_, q, ops[n - 1]) { StepKeepsGood(old_, q, ops[n - 1]); }
    }
  }

  // The number of slots holding the old bytes that nobody already paid for.
  function Holding(old_: Hash, slots: seq<Slot>, n: nat): nat
    requires n <= |slots|
  {
    if n == 0 then 0 else
      Holding(old_, slots, n - 1) +
      (if slots[n - 1].content == Some(old_) && !slots[n - 1].phase.Consumed? then 1 else 0)
  }

  lemma {:induction false} HoldingIsCovered(old_: Hash, slots: seq<Slot>, n: nat)
    requires n <= |slots|
    ensures Holding(old_, slots, n) <= DebtNeeded(old_, slots, n)
  {
    if n > 0 { HoldingIsCovered(old_, slots, n - 1); }
  }

  // Main result: in every run, once the request has returned, the owed count
  // is at least the number of slots holding the old bytes, leaving out a slot
  // whose failed dispatch has paid and is about to empty it.
  lemma OwedCoversSlots(old_: Hash, slots: nat, ops: seq<Op>, n: nat)
    requires n <= |ops|
    ensures var p := RunTo(old_, Start(slots), ops, n);
      p.scan.Returned? ==> Holding(old_, p.slots, |p.slots|) <= Owed(p.pending, old_)
  {
    RunKeepsGood(old_, Start(slots), ops, n);
    var p := RunTo(old_, Start(slots), ops, n);
    HoldingIsCovered(old_, p.slots, |p.slots|);
  }

  // ---- The debt against every slot with the old bytes ----

  function HoldingAny(old_: Hash, slots: seq<Slot>, n: nat): nat
    requires n <= |slots|
  {
    if n == 0 then 0 else
      HoldingAny(old_, slots, n - 1) + (if slots[n - 1].content == Some(old_) then 1 else 0)
  }

  function AboutToEmpty(old_: Hash, slots: seq<Slot>, n: nat): nat
    requires n <= |slots|
  {
    if n == 0 then 0 else
      AboutToEmpty(old_, slots, n - 1) +
      (if slots[n - 1].content == Some(old_) && slots[n - 1].phase.Consumed? then 1 else 0)
  }

  lemma {:induction false} HoldingSplits(old_: Hash, slots: seq<Slot>, n: nat)
    requires n <= |slots|
    ensures HoldingAny(old_, slots, n) == Holding(old_, slots, n) + AboutToEmpty(old_, slots, n)
  {
    if n > 0 { HoldingSplits(old_, slots, n - 1); }
  }

  // Counting every slot, the owed count falls short by no more than the failed
  // dispatches that have paid and not yet emptied their slot.
  lemma ShortfallIsFailedDispatches(old_: Hash, slots: nat, ops: seq<Op>, n: nat)
    requires n <= |ops|
    ensures var p := RunTo(old_, Start(slots), ops, n);
      p.scan.Returned? ==>
        HoldingAny(old_, p.slots, |p.slots|) <= Owed(p.pending, old_) + AboutToEmpty(old_, p.slots, |p.slots|)
  {
    OwedCoversSlots(old_, slots, ops, n);
    var p := RunTo(old_, Start(slots), ops, n);
    HoldingSplits(old_, p.slots, |p.slots|);
  }

  // The owed count is at least the number of slots with the old bytes.
  predicate CoversEvery(old_: Hash, p: Pool) {
    HoldingAny(old_, p.slots, |p.slots|) <= Owed(p.pending, old_)
  }

  // The step pays a debt of the old bytes.
  predicate PaysOld(old_: Hash, p: Pool, op: Op) {
    && OnSlot(op) && op.i < |p.slots|
    && ((op.FailPay? && p.slots[op.i].content == Some(old_)) || (op.Pay? && p.slots[op.i].phase == Emptied(old_)))
  }

  lemma {:induction false} HoldingUpdate(old_: Hash, slots: seq<Slot>, i: nat, s: Slot, n: nat)
    requires i < |slots| && n <= |slots|
    ensures HoldingAny(old_, slots[i := s], n) == HoldingAny(old_, slots, n) +
      (if i >= n || (s.content == Some(old_)) == (slots[i].content == Some(old_)) then 0
       else if s.content == Some(old_) then 1 else -1)
  {
    if n > 0 { HoldingUpdate(old_, slots, i, s, n - 1); }
  }

  // A payment leaves every slot with the old bytes covered exactly when there was
  // a debt to spare before it.
  lemma PaymentNeedsSpare(old_: Hash, p: Pool, op: Op)
    requires Good(old_, p) && p.scan.Returned? && Enabled(old_, p, op) && PaysOld(old_, p, op)
    ensures CoversEvery(old_, Step(old_, p, op)) <==> HoldingAny(old_, p.slots, |p.slots|) < Owed(p.pending, old_)
  {
    DebtWitness(old_, p.slots, op.i, |p.slots|);
    HoldingUpdate(old_, p.slots, op.i, SlotStep(p, op), |p.slots|);
  }

  // No other step uncovers a slot.
  lemma OtherStepsKeepCover(old_: Hash, p: Pool, op: Op)
    requires Good(old_, p) && p.scan.Returned? && Enabled(old_, p, op) && !PaysOld(old_, p, op)
    requires CoversEvery(old_, p)
    ensures CoversEvery(old_, Step(old_, p, op))
  {
    if OnSlot(op) { HoldingUpdate(old_, p.slots, op.i, SlotStep(p, op), |p.slots|); }
  }

  // Everything that may yet claim a debt: a slot with the old bytes, and one that
  // held them and still has to pay.
  predicate Claims(old_: Hash, s: Slot) {
    s.content == Some(old_) || s.phase == Emptied(old_)
  }

  function ClaimsTo(old_: Hash, slots: seq<Slot>, n: nat): nat
    requires n <= |slots|
  {
    if n == 0 then 0 else ClaimsTo(old_, slots, n - 1) + (if Claims(old_, slots[n - 1]) then 1 else 0)
  }

  lemma {:induction false} ClaimsUpdate(old_: Hash, slots: seq<Slot>, i: nat, s: Slot, n: nat)
    requires i < |slots| && n <= |slots|
    ensures ClaimsTo(old_, slots[i := s], n) == ClaimsTo(old_, slots, n) +
      (if i < n then (if Claims(old_, s) then 1 else 0) - (if Claims(old_, slots[i]) then 1 else 0) else 0)
  {
    if n > 0 { ClaimsUpdate(old_, slots, i, s, n - 1); }
  }

  lemma {:induction false} HoldersClaim(old_: Hash, slots: seq<Slot>, n: nat)
    requires n <= |slots|
    ensures HoldingAny(old_, slots, n) <= ClaimsTo(old_, slots, n)
  {
    if n > 0 { HoldersClaim(old_, slots, n - 1); }
  }

  // The walk has counted every claim among the slots it has seen; after the
  // return the debt covers every claim.
  ghost predicate ClaimsCovered(old_: Hash, p: Pool) {
    match p.scan
    case NotStarted => true
    case Scanning(next, deferred) => next <= |p.slots| && ClaimsTo(old_, p.slots, next) <= deferred
    case Returned => ClaimsTo(old_, p.slots, |p.slots|) <= Owed(p.pending, old_)
  }

  predicate FailsOld(old_: Hash, p: Pool, op: Op) {
    op.FailPay? && op.i < |p.slots| && p.slots[op.i].content == Some(old_)
  }

  lemma SlotStepKeepsClaims(old_: Hash, p: Pool, op: Op)
    requires ClaimsCovered(old_, p) && Good(old_, p) && Enabled(old_, p, op) && OnSlot(op)
    requires p.scan.Returned? ==> !FailsOld(old_, p, op)
    ensures ClaimsCovered(old_, Step(old_, p, op))
  {
    match p.scan
    case NotStarted =>
    case Scanning(next, _) => ClaimsUpdate(old_, p.slots, op.i, SlotStep(p, op), next);
    case Returned => ClaimsUpdate(old_, p.slots, op.i, SlotStep(p, op), |p.slots|);
  }

  // Every step keeps the claims covered, except a failed dispatch on the old bytes
  // after the return.
  lemma StepKeepsClaims(old_: Hash, p: Pool, op: Op)
    requires ClaimsCovered(old_, p) && Good(old_, p) && Enabled(old_, p, op)
    requires p.scan.Returned? ==> !FailsOld(old_, p, op)
    ensures ClaimsCovered(old_, Step(old_, p, op))
  {
    if OnSlot(op) {
      SlotStepKeepsClaims(old_, p, op);
    } else if op.ScanSlot? {
      var i, s := p.scan.next, p.slots[p.scan.next];
      if s.phase.Free? { ClaimsUpdate(old_, p.slots, i, s.(content := None), i + 1); }
    }
  }

  lemma NextKeepsClaims(old_: Hash, p: Pool, q: Pool, op: Op)
    requires ClaimsCovered(old_, p) && Good(old_, p) && (p.scan.Returned? ==> !FailsOld(old_, p, op))
    requires q == Do(old_, p, op)
    ensures ClaimsCovered(old_, q)
  {
    if Enabled(old_, p, op) { StepKeepsClaims(old_, p, op); }
  }

  // Step k of the run is a failed dispatch on the old bytes after the return.
  ghost predicate FailsAt(old_: Hash, slots: nat, ops: seq<Op>, k: nat) {
    && k < |ops| && RunTo(old_, Start(slots), ops, k).scan.Returned?
    && FailsOld(old_, RunTo(old_, Start(slots), ops, k), ops[k])
  }

  lemma {:induction false} ClaimsStayCovered(old_: Hash, slots: nat, ops: seq<Op>, n: nat)
    requires n <= |ops| && forall k: nat :: k < n ==> !FailsAt(old_, slots, ops, k)
    ensures ClaimsCovered(old_, RunTo(old_, Start(slots), ops, n))
  {
    if n > 0 {
      ClaimsStayCovered(old_, slots, ops, n - 1);
      RunKeepsGood(old_, Start(slots), ops, n - 1);
      assert !FailsAt(old_, slots, ops, n - 1);
      NextKeepsClaims(old_, RunTo(old_, Start(slots), ops, n - 1), RunTo(old_, Start(slots), ops, n), ops[n - 1]);
    }
  }

  // Main result: as long as no dispatch on the old bytes has failed since the
  // return, the owed count covers every slot with the old bytes.
  lemma CoversEveryWithoutFailures(old_: Hash, slots: nat, ops: seq<Op>, n: nat)
    requires n <= |ops| && forall k: nat :: k < n ==> !FailsAt(old_, slots, ops, k)
    ensures var p := RunTo(old_, Start(slots), ops, n); p.scan.Returned? ==> CoversEvery(old_, p)
  {
    ClaimsStayCovered(old_, slots, ops, n);
    var p := RunTo(old_, Start(slots), ops, n);
    HoldersClaim(old_, p.slots, |p.slots|);
  }

  // Step k pays a debt of the old bytes when none is to spare.
  ghost predicate OverpaysAt(old_: Hash, p: Pool, ops: seq<Op>, k: nat) {
    && k < |ops|
    && var q := RunTo(old_, p, ops, k);
      && Enabled(old_, q, ops[k]) && PaysOld(old_, q, ops[k])
      && HoldingAny(old_, q.slots, |q.slots|) == Owed(q.pending, old_)
  }

  ghost predicate CoversEveryAt(old_: Hash, p: Pool, ops: seq<Op>, k: nat) {
    k <= |ops| && CoversEvery(old_, RunTo(old_, p, ops, k))
  }

  lemma {:induction false} StaysReturned(old_: Hash, p: Pool, ops: seq<Op>, n: nat)
    requires n <= |ops| && p.scan.Returned?
    ensures RunTo(old_, p, ops, n).scan.Returned?
  {
    if n > 0 { StaysReturned(old_, p, ops, n - 1); }
  }

  lemma CoverAfterStep(old_: Hash, p: Pool, ops: seq<Op>, k: nat)
    requires k < |ops| && Good(old_, p) && p.scan.Returned? && CoversEveryAt(old_, p, ops, k)
    ensures CoversEveryAt(old_, p, ops, k + 1) <==> !OverpaysAt(old_, p, ops, k)
  {
    RunKeepsGood(old_, p, ops, k);
    StaysReturned(old_, p, ops, k);
    var q, op := RunTo(old_, p, ops, k), ops[k];
    if Enabled(old_, q, op) {
      if PaysOld(old_, q, op) { PaymentNeedsSpare(old_, q, op); } else { OtherStepsKeepCover(old_, q, op); }
    }
  }

  // What holds at first and is lost exactly by a bad step holds throughout if and
  // only if no step is bad.
  lemma {:induction false} HoldsUnlessBad(holds: nat -> bool, bad: nat -> bool, n: nat)
    requires holds(0) && forall k: nat :: k < n && holds(k) ==> (holds(k + 1) <==> !bad(k))
    ensures (forall k: nat :: k <= n ==> holds(k)) <==> (forall k: nat :: k < n ==> !bad(k))
  {
    if n > 0 {
      HoldsUnlessBad(holds, bad, n - 1);
      assert holds(n - 1) ==> (holds(n - 1 + 1) <==> !bad(n - 1));
    }
  }

  // Main result: over any run after the return, every slot with the old bytes is
  // covered in every state if and only if no debt of the old bytes is ever paid
  // when none is to spare.
  lemma CoversEveryExactly(old_: Hash, p: Pool, ops: seq<Op>)
    requires Good(old_, p) && p.scan.Returned? && CoversEvery(old_, p)
    ensures (forall k: nat :: k <= |ops| ==> CoversEveryAt(old_, p, ops, k)) <==>
      (forall k: nat :: k < |ops| ==> !OverpaysAt(old_, p, ops, k))
  {
    var holds := (k: nat) => CoversEveryAt(old_, p, ops, k);
    var bad := (k: nat) => OverpaysAt(old_, p, ops, k);
    forall k: nat | k < |ops| && holds(k) ensures holds(k + 1) <==> !bad(k) {
      CoverAfterStep(old_, p, ops, k);
    }
    HoldsUnlessBad(holds, bad, |ops|);
    assert forall k: nat :: holds(k) <==> CoversEveryAt(old_, p, ops, k);
    assert forall k: nat :: bad(k) <==> OverpaysAt(old_, p, ops, k);
  }

  // The condition is not empty: a run after whose failed dispatch the last debt is
  // gone while the slot still holds the old bytes until it is emptied.
  lemma FailedDispatchWindow(old_: Hash)
    ensures var ops := [Acquire(0), Install(0, old_), Begin, ScanSlot, Record, FailPay(0)];
      var p := RunTo(old_, Start(1), ops, 6);
      && p.scan.Returned? && |p.slots| == 1 && p.slots[0].content == Some(old_)
      && Owed(p.pending, old_) == 0
  {
    var ops := [Acquire(0), Install(0, old_), Begin, ScanSlot, Record, FailPay(0)];
    assert RunTo(old_, Start(1), ops, 1) == Pool([Slot(None, Held)], map[], NotStarted);
    assert RunTo(old_, Start(1), ops, 2) == Pool([Slot(Some(old_), Held)], map[], NotStarted);
    assert RunTo(old_, Start(1), ops, 3) == Pool([Slot(Some(old_), Held)], map[], Scanning(0, 0));
    assert RunTo(old_, Start(1), ops, 4) == Pool([Slot(Some(old_), Held)], map[], Scanning(1, 1));
    assert RunTo(old_, Start(1), ops, 5) == Pool([Slot(Some(old_), Held)], map[old_ := 1], Returned);
    assert RunTo(old_, Start(1), ops, 6) == Pool([Slot(Some(old_), Consumed)], map[], Returned);
  }

  // ---- How often the old bytes still complete a dispatch ----

  // After the request returned, a first dispatch that completes on the old bytes
  // always finds a debt and goes on to empty its slot.
  lemma CompletionEmpties(old_: Hash, p: Pool, i: nat)
    requires Good(old_, p) && p.scan.Returned?
    requires Enabled(old_, p, Complete(i)) && p.slots[i].content == Some(old_)
    ensures Step(old_, p, Complete(i)).slots[i].phase.Decided?
  {
    DebtWitness(old_, p.slots, i, |p.slots|);
  }

  // A dispatch completes on the old bytes in slot i, as the first try or as the
  // retry of a failed one. A retry that succeeds does not look at the debts.
  predicate CompletesOld(old_: Hash, p: Pool, op: Op, i: nat) {
    (op == Complete(i) || op == RetryDone(i)) && Enabled(old_, p, op) && p.slots[i].content == Some(old_)
  }

  // How many dispatches completed on the old bytes in slot i during the run.
  function Completions(old_: Hash, p: Pool, ops: seq<Op>, n: nat, i: nat): nat
    requires n <= |ops|
  {
    if n == 0 then 0 else
      Completions(old_, p, ops, n - 1, i) +
      (if CompletesOld(old_, RunTo(old_, p, ops, n - 1), ops[n - 1], i) then 1 else 0)
  }

  // The holder of slot i retries a failed call on old bytes it has re-installed.
  predicate RetriesOld(old_: Hash, p: Pool, i: nat) {
    i < |p.slots| && p.slots[i] == Slot(Some(old_), Retrying)
  }

  // How many dispatches slot i can still complete on the old bytes.
  function StillPossible(old_: Hash, p: Pool, i: nat): (most: nat)
    ensures most <= if RetriesOld(old_, p, i) then 2 else 1
  {
    if i >= |p.slots| || p.slots[i].content != Some(old_) then 0
    else
      match p.slots[i].phase
      case Retrying => 2
      case Free => 1
      case Held => 1
      case Finished => 1
      case _ => 0
  }

  lemma OneStepLess(old_: Hash, p: Pool, op: Op, i: nat)
    requires Good(old_, p) && p.scan.Returned? && Enabled(old_, p, op)
    ensures Step(old_, p, op).scan.Returned?
    ensures StillPossible(old_, Step(old_, p, op), i) + (if CompletesOld(old_, p, op, i) then 1 else 0)
      <= StillPossible(old_, p, i)
  {
    if op == Complete(i) && p.slots[i].content == Some(old_) { CompletionEmpties(old_, p, i); }
  }

  // Whatever the interleaving, slot i completes no more than what was possible.
  lemma {:induction false} NoMoreThanPossible(old_: Hash, p: Pool, ops: seq<Op>, n: nat, i: nat)
    requires n <= |ops| && Good(old_, p) && p.scan.Returned?
    ensures RunTo(old_, p, ops, n).scan.Returned?
    ensures Completions(old_, p, ops, n, i) + StillPossible(old_, RunTo(old_, p, ops, n), i) <=
      StillPossible(old_, p, i)
  {
    if n > 0 {
      NoMoreThanPossible(old_, p, ops, n - 1, i);
      RunKeepsGood(old_, p, ops, n - 1);
      var q := RunTo(old_, p, ops, n - 1);
      if Enabled(old_, q, ops[n - 1]) { OneStepLess(old_, q, ops[n - 1], i); }
    }
  }

  lemma BoundedByPossible(old_: Hash, p: Pool, ops: seq<Op>, n: nat, i: nat)
    requires n <= |ops| && Good(old_, p) && p.scan.Returned?
    ensures Completions(old_, p, ops, n, i) <= if RetriesOld(old_, p, i) then 2 else 1
  {
    NoMoreThanPossible(old_, p, ops, n, i);
  }

  // A retry under way leads to two completions: its own, which leaves the old
  // bytes in the slot, and the next dispatch's.
  lemma RetryAllowsTwo(old_: Hash, p: Pool, i: nat) returns (ops: seq<Op>)
    requires RetriesOld(old_, p, i)
    ensures Completions(old_, p, ops, |ops|, i) == 2
  {
    ops := [RetryDone(i), Unlock(i), Acquire(i), Complete(i)];
    assert Completions(old_, p, ops, 0, i) == 0 && RunTo(old_, p, ops, 0) == p;
    assert Completions(old_, p, ops, 1, i) == 1;
    assert RunTo(old_, p, ops, 1).slots[i] == Slot(Some(old_), Finished);
    assert Completions(old_, p, ops, 2, i) == 1;
    assert RunTo(old_, p, ops, 2).slots[i] == Slot(Some(old_), Free);
    assert Completions(old_, p, ops, 3, i) == 1;
    assert RunTo(old_, p, ops, 3).slots[i] == Slot(Some(old_), Held);
  }

  ghost predicate CompletesAtMost(old_: Hash, p: Pool, i: nat, ops: seq<Op>, most: nat) {
    Completions(old_, p, ops, |ops|, i) <= most
  }

  // Main result: at most two more dispatches of a slot complete on the old bytes
  // after the request returned, in every run, and at most one if its holder is not
  // retrying on re-installed old bytes then.
  lemma AtMostTwoMore(old_: Hash, p: Pool, i: nat, ops: seq<Op>)
    requires Good(old_, p) && p.scan.Returned?
    ensures CompletesAtMost(old_, p, i, ops, 2)
    ensures !RetriesOld(old_, p, i) ==> CompletesAtMost(old_, p, i, ops, 1)
  {
    BoundedByPossible(old_, p, ops, |ops|, i);
  }

  // Main result: one more at most in every run, if and only if the holder was not
  // so retrying when the request returned.
  lemma AtMostOneMore(old_: Hash, p: Pool, i: nat)
    requires Good(old_, p) && p.scan.Returned?
    ensures (forall ops :: CompletesAtMost(old_, p, i, ops, 1)) <==> !RetriesOld(old_, p, i)
  {
    if RetriesOld(old_, p, i) {
      var ops := RetryAllowsTwo(old_, p, i);
      assert !CompletesAtMost(old_, p, i, ops, 1);
    } else {
      forall ops ensures CompletesAtMost(old_, p, i, ops, 1) {
        AtMostTwoMore(old_, p, i, ops);
      }
    }
  }

  lemma RetryBeforeRequest(old_: Hash, ops: seq<Op>)
    requires |ops| >= 5 && ops[0] == Acquire(0) && ops[1] == Install(0, old_)
    requires ops[2] == FailPay(0) && ops[3] == FailEmpty(0) && ops[4] == Install(0, old_)
    ensures RunTo(old_, Start(1), ops, 5) == Pool([Slot(Some(old_), Retrying)], map[], NotStarted)
  {
    assert RunTo(old_, Start(1), ops, 1) == Pool([Slot(None, Held)], map[], NotStarted);
    assert RunTo(old_, Start(1), ops, 2) == Pool([Slot(Some(old_), Held)], map[], NotStarted);
    assert RunTo(old_, Start(1), ops, 3) == Pool([Slot(Some(old_), Consumed)], map[], NotStarted);
    assert RunTo(old_, Start(1), ops, 4) == Pool([Slot(None, Refilling)], map[], NotStarted);
  }

  // Such a retry can be under way at the return: the run installs the old bytes
  // only before the request, and the state it returns in allows two completions.
  lemma RetryUnderWayAtReturn(old_: Hash)
    ensures var ops :=
        [Acquire(0), Install(0, old_), FailPay(0), FailEmpty(0), Install(0, old_), Begin, ScanSlot, Record];
      RunTo(old_, Start(1), ops, 8) == Pool([Slot(Some(old_), Retrying)], map[old_ := 1], Returned)
  {
    var ops := [Acquire(0), Install(0, old_), FailPay(0), FailEmpty(0), Install(0, old_), Begin, ScanSlot, Record];
    RetryBeforeRequest(old_, ops);
    assert RunTo(old_, Start(1), ops, 6) == Pool([Slot(Some(old_), Retrying)], map[], Scanning(0, 0));
    assert RunTo(old_, Start(1), ops, 7) == Pool([Slot(Some(old_), Retrying)], map[], Scanning(1, 1));
  }

  // The request as one caller runs it, when nobody else gets in between.
  function Walked(old_: Hash, slots: seq<Slot>, pending: map<Hash, nat>, k: nat): (p: Pool)
    requires k <= |slots|
    ensures |p.slots| == |slots| && p.scan.Scanning? && p.scan.next == k
  {
    if k == 0 then Step(old_, Pool(slots, pending, NotStarted), Begin)
    else Step(old_, Walked(old_, slots, pending, k - 1), ScanSlot)
  }

  lemma {:induction false} WalkLeavesTheRest(old_: Hash, slots: seq<Slot>, pending: map<Hash, nat>, k: nat)
    requires k <= |slots|
    ensures var p := Walked(old_, slots, pending, k);
      p.pending == pending && forall i :: k <= i < |slots| ==> p.slots[i] == slots[i]
  {
    if k > 0 { WalkLeavesTheRest(old_, slots, pending, k - 1); }
  }

  lemma {:induction false} WalkClearsFree(old_: Hash, slots: seq<Slot>, pending: map<Hash, nat>, k: nat, i: nat)
    requires i < k <= |slots|
    ensures var s := Walked(old_, slots, pending, k).slots[i];
      s.phase == slots[i].phase && (s.phase.Free? ==> s.content != Some(old_))
  {
    if i < k - 1 {
      WalkClearsFree(old_, slots, pending, k - 1, i);
    } else {
      WalkLeavesTheRest(old_, slots, pending, k - 1);
    }
  }

  // One round of the walk at slot i, in terms of what the slot holds.
  lemma WalkNext(old_: Hash, slots: seq<Slot>, pending: map<Hash, nat>, i: nat)
    requires i < |slots|
    ensures var p, s := Walked(old_, slots, pending, i), slots[i];
      && p.slots[i] == s
      && Walked(old_, slots, pending, i + 1) == Pool(
        if s.phase.Free? && s.content == Some(old_) then p.slots[i := s.(content := None)] else p.slots,
        p.pending, Scanning(i + 1, p.scan.deferred + (if s.phase.Free? then 0 else 1)))
  {
    WalkLeavesTheRest(old_, slots, pending, i);
  }

  lemma WalkEnds(old_: Hash, slots: seq<Slot>, pending: map<Hash, nat>)
    ensures var p := Walked(old_, slots, pending, |slots|);
      p.pending == pending && forall i :: 0 <= i < |slots| && p.slots[i].phase.Free? ==>
        p.slots[i].content != Some(old_)
  {
    WalkLeavesTheRest(old_, slots, pending, |slots|);
    var p := Walked(old_, slots, pending, |slots|);
    forall i | 0 <= i < |slots| && p.slots[i].phase.Free? ensures p.slots[i].content != Some(old_) {
      WalkClearsFree(old_, slots, pending, |slots|, i);
    }
  }

  // The free slots with the old bytes among the first k.
  function Evictable(old_: Hash, slots: seq<Slot>, k: nat): nat
    requires k <= |slots|
  {
    if k == 0 then 0 else
      Evictable(old_, slots, k - 1) + (if slots[k - 1].phase.Free? && slots[k - 1].content == Some(old_) then 1 else 0)
  }

  predicate FreeWithOld(old_: Hash, s: Slot) {
    s.phase.Free? && s.content == Some(old_)
  }

  function FreeOnes(old_: Hash, slots: seq<Slot>, k: nat): set<nat>
    requires k <= |slots|
  {
    set i: nat | i < k && FreeWithOld(old_, slots[i])
  }

  function BusyOnes(slots: seq<Slot>, k: nat): set<nat>
    requires k <= |slots|
  {
    set i: nat | i < k && !slots[i].phase.Free?
  }

  lemma {:induction false} EvictsFreeOnes(old_: Hash, slots: seq<Slot>, k: nat)
    requires k <= |slots|
    ensures Evictable(old_, slots, k) == |FreeOnes(old_, slots, k)|
  {
    if k > 0 {
      EvictsFreeOnes(old_, slots, k - 1);
      assert FreeOnes(old_, slots, k) ==
        FreeOnes(old_, slots, k - 1) + if FreeWithOld(old_, slots[k - 1]) then {k - 1} else {};
    }
  }

  lemma DeferredNext(old_: Hash, slots: seq<Slot>, pending: map<Hash, nat>, i: nat)
    requires i < |slots|
    ensures Walked(old_, slots, pending, i + 1).scan.deferred ==
      Walked(old_, slots, pending, i).scan.deferred + if slots[i].phase.Free? then 0 else 1
  {
    WalkNext(old_, slots, pending, i);
  }

  lemma BusyNext(slots: seq<Slot>, i: nat)
    requires i < |slots|
    ensures |BusyOnes(slots, i + 1)| == |BusyOnes(slots, i)| + if slots[i].phase.Free? then 0 else 1
  {
    assert BusyOnes(slots, i + 1) == BusyOnes(slots, i) + if slots[i].phase.Free? then {} else {i};
  }

  lemma {:induction false} DefersBusyOnes(old_: Hash, slots: seq<Slot>, pending: map<Hash, nat>, k: nat)
    requires k <= |slots|
    ensures Walked(old_, slots, pending, k).scan.deferred == |BusyOnes(slots, k)|
  {
    if k == 0 {
      assert BusyOnes(slots, 0) == {};
    } else {
      DefersBusyOnes(old_, slots, pending, k - 1);
      DeferredNext(old_, slots, pending, k - 1);
      BusyNext(slots, k - 1);
    }
  }

  lemma {:induction false} WalkedAt(old_: Hash, slots: seq<Slot>, pending: map<Hash, nat>, k: nat, i: nat)
    requires k <= |slots| && i < |slots|
    ensures Walked(old_, slots, pending, k).slots[i] ==
      if i < k && FreeWithOld(old_, slots[i]) then Slot(None, Free) else slots[i]
  {
    if k > 0 {
      WalkedAt(old_, slots, pending, k - 1, i);
      WalkNext(old_, slots, pending, k - 1);
    }
  }

  // Exactly the free slots with the old bytes are emptied.
  ghost predicate EmptiesFreeOnes(old_: Hash, before: seq<Slot>, after: seq<Slot>) {
    && |after| == |before|
    && forall i :: 0 <= i < |before| ==>
      after[i] == if FreeWithOld(old_, before[i]) then Slot(None, Free) else before[i]
  }

  // Main result: a request that nobody interrupts empties exactly those slots, and
  // counts them and the busy ones.
  lemma RequestsExactly(old_: Hash, slots: seq<Slot>, pending: map<Hash, nat>)
    ensures EmptiesFreeOnes(old_, slots, Walked(old_, slots, pending, |slots|).slots)
    ensures Evictable(old_, slots, |slots|) == |FreeOnes(old_, slots, |slots|)|
    ensures Walked(old_, slots, pending, |slots|).scan.deferred == |BusyOnes(slots, |slots|)|
  {
    EvictsFreeOnes(old_, slots, |slots|);
    DefersBusyOnes(old_, slots, pending, |slots|);
    forall i | 0 <= i < |slots|
      ensures Walked(old_, slots, pending, |slots|).slots[i] ==
        if FreeWithOld(old_, slots[i]) then Slot(None, Free) else slots[i]
    {
      WalkedAt(old_, slots, pending, |slots|, i);
    }
  }

  lemma ChargedOwes(pending: map<Hash, nat>, hash: Hash, n: nat)
    ensures Owed(Charged(pending, hash, n), hash) == Owed(pending, hash) + n
  {
  }

  class SharedPluginPool {
    var slots: seq<Slot>
    var pending: map<Hash, nat>

    constructor (n: nat)
      ensures Pool(slots, pending, NotStarted) == Start(n)
    {
      slots, pending := seq(n, _ => Slot(None, Free)), map[];
    }

    // The walk over the slots: empties the free ones that hold the old bytes and
    // counts the busy ones.
    method WalkSlots(old_: Hash) returns (evicted: nat, deferred: nat)
      modifies this`slots
      ensures Pool(slots, pending, Scanning(|old(slots)|, deferred))
        == Walked(old_, old(slots), old(pending), |old(slots)|)
      ensures evicted == Evictable(old_, old(slots), |old(slots)|)
    {
      ghost var slots0 := slots;
      evicted, deferred := 0, 0;
      var i := 0;
      while i < |slots|
        invariant i <= |slots| == |slots0|
        invariant Pool(slots, pending, Scanning(i, deferred)) == Walked(old_, slots0, pending, i)
        invariant evicted == Evictable(old_, slots0, i)
      {
        WalkNext(old_, slots0, pending, i);
        if slots[i].phase.Free? {
          if slots[i].content == Some(old_) {
            slots := slots[i := slots[i].(content := None)];
            evicted := evicted + 1;
          }
        } else {
          deferred := deferred + 1;
        }
        i := i + 1;
      }
    }

    // Then records a debt for every busy slot.
    method RequestStoreSwap(old_: Hash) returns (evicted: nat, deferred: nat)
      modifies this
      ensures Pool(slots, pending, Returned)
        == Step(old_, Walked(old_, old(slots), old(pending), |old(slots)|), Record)
      ensures deferred == Walked(old_, old(slots), old(pending), |old(slots)|).scan.deferred
      ensures evicted == Evictable(old_, old(slots), |old(slots)|)
      ensures forall i :: 0 <= i < |slots| && slots[i].phase.Free? ==> slots[i].content != Some(old_)
      ensures Owed(pending, old_) == Owed(old(pending), old_) + deferred
      ensures EmptiesFreeOnes(old_, old(slots), slots)
      ensures evicted == |FreeOnes(old_, old(slots), |old(slots)|)| && deferred == |BusyOnes(old(slots), |old(slots)|)|
    {
      RequestsExactly(old_, slots, pending);
      WalkEnds(old_, slots, pending);
      evicted, deferred := WalkSlots(old_);
      ChargedOwes(pending, old_, deferred);
      if deferred > 0 {
        pending := pending[old_ := Owed(pending, old_) + deferred];
      }
    }

    // Pays one debt and forgets the hash when it was the last.
    method NotePendingEvictionConsumed(hash: Hash)
      modifies this`pending
      ensures pending == Paid(old(pending), hash)
    {
      if hash in pending {
        var owed := pending[hash];
        if owed > 0 { owed := owed - 1; }
        if owed == 0 { pending := pending - {hash}; } else { pending := pending[hash := owed]; }
      }
    }

    // What the holder of slot i does after its dispatch: complete, empty and pay,
    // in that order, when nobody else gets in between. An empty slot is left alone.
    method EvictIfSwapPending(i: nat)
      requires i < |slots| && slots[i].phase.Held?
      modifies this
      ensures var s := old(slots[i]);
        if s.content.Some? && s.content.value in old(pending) then
          slots == old(slots)[i := Slot(None, Finished)] && pending == Paid(old(pending), s.content.value)
        else slots == old(slots)[i := s.(phase := Finished)] && pending == old(pending)
    {
      if slots[i].content.None? || slots[i].content.value !in pending {
        slots := slots[i := slots[i].(phase := Finished)];
        return;
      }
      var hash := slots[i].content.value;
      slots := slots[i := Slot(None, Finished)];
      NotePendingEvictionConsumed(hash);
    }

    method NoteBytesCurrent(hash: Hash)
      modifies this`pending
      ensures pending == old(pending) - {hash}
    {
      pending := pending - {hash};
    }
  }
}
