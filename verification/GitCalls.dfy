// Calls that go through the git cache, interleaved with each other and with
// changes of the indexes. `git` is what git answers to an index question, an
// arbitrary function of directory, question and index identity.
//
// Proved: in every interleaving each entry carries the identity its call read and
// the answer its git run gave, and what that means for the calls it answers.
module GitCalls {
  import opened GitCache
  import opened Wrappers

  type Git = (Slot, Option<Identity>) -> Answer

  // Index identities by directory, after each change so far.
  type World = seq<map<Name, Identity>>

  function At(past: World, dir: Name, t: nat): Option<Identity>
    requires t < |past|
  {
    if dir in past[t] then Some(past[t][dir]) else None
  }

  datatype Call =
    | Asked(slot: Slot, identity: Option<Identity>, readAt: nat)
    | Missed(slot: Slot, identity: Option<Identity>, readAt: nat)
    | Ran(slot: Slot, identity: Option<Identity>, readAt: nat, answer: Answer, ranAt: nat)

  // A call answered from the cache.
  datatype Hit = Hit(slot: Slot, readAt: nat, recalledAt: nat, answer: Answer, source: Source)

  datatype State = State(entries: map<Slot, Entry>, past: World, calls: map<nat, Call>, hits: seq<Hit>) {
    function Now(): nat
      requires |past| > 0
    {
      |past| - 1
    }
  }

  datatype Outcome = Fits | TooLong | Failed

  datatype IndexChange = IndexChange(dir: Name, identity: Option<Identity>)

  // What git says about a layout may depend on anything, so it comes with the step.
  datatype Op =
    | Ask(pid: nat, slot: Slot)
    | Recall(pid: nat)
    | RunGit(pid: nat, layout: Answer)
    | Keep(pid: nat, outcome: Outcome)
    | Forget(dir: Name)
    | Change(change: IndexChange)

  predicate Enabled(s: State, op: Op) {
    |s.past| > 0 &&
    match op
    case Ask(pid, _) => pid !in s.calls
    case Recall(pid) => pid in s.calls && s.calls[pid].Asked?
    case RunGit(pid, _) => pid in s.calls && s.calls[pid].Missed?
    case Keep(pid, _) => pid in s.calls && s.calls[pid].Ran?
    case Forget(_) => true
    case Change(_) => true
  }

  // The identity is read for index questions only.
  function IdentityRead(past: World, slot: Slot, t: nat): Option<Identity>
    requires t < |past|
  {
    if slot.question.Index? then At(past, slot.dir, t) else None
  }

  function HitStep(s: State, pid: nat): State
    requires Enabled(s, Recall(pid)) && s.calls[pid].slot in s.entries
  {
    var c, e := s.calls[pid], s.entries[s.calls[pid].slot];
    s.(calls := s.calls - {pid}, hits := s.hits + [Hit(c.slot, c.readAt, s.Now(), e.answer, e.source)])
  }

  function MissStep(s: State, pid: nat): State
    requires Enabled(s, Recall(pid))
  {
    var c := s.calls[pid];
    s.(entries := AfterRecall(s.entries, c.slot, c.identity),
       calls := s.calls[pid := Missed(c.slot, c.identity, c.readAt)])
  }

  function RememberStep(s: State, c: Call): State
    requires c.Ran?
  {
    var e := Entry(c.slot.dir, c.answer, c.identity, Source(c.readAt, c.ranAt));
    s.(entries := AfterRemember(s.entries, c.slot, e))
  }

  // Only a successful answer is filed, an index answer only if it is not too long
  // and there was an index; a failure forgets the layout around the directory.
  function KeepStep(s: State, c: Call, outcome: Outcome): State
    requires c.Ran?
  {
    if outcome.Failed? then s.(entries := AfterForget(s.entries, c.slot.dir))
    else if c.slot.question.Layout? then RememberStep(s, c)
    else if c.identity.Some? && outcome.Fits? then RememberStep(s, c)
    else s
  }

  function Answered(git: Git, past: World, slot: Slot, t: nat, layout: Answer): Answer
    requires t < |past|
  {
    if slot.question.Index? then git(slot, At(past, slot.dir, t)) else layout
  }

  function After(world: map<Name, Identity>, c: IndexChange): map<Name, Identity> {
    if c.identity.Some? then world[c.dir := c.identity.value] else world - {c.dir}
  }

  function Step(git: Git, s: State, op: Op): State
    requires Enabled(s, op)
  {
    match op
    case Ask(pid, slot) =>
      s.(calls := s.calls[pid := Asked(slot, IdentityRead(s.past, slot, s.Now()), s.Now())])
    case Recall(pid) =>
      if Recalled(s.entries, s.calls[pid].slot, s.calls[pid].identity).Some? then HitStep(s, pid) else MissStep(s, pid)
    case RunGit(pid, layout) =>
      var c := s.calls[pid];
      var answer := Answered(git, s.past, c.slot, s.Now(), layout);
      s.(calls := s.calls[pid := Ran(c.slot, c.identity, c.readAt, answer, s.Now())])
    case Keep(pid, outcome) => KeepStep(s.(calls := s.calls - {pid}), s.calls[pid], outcome)
    case Forget(dir) => s.(entries := AfterForget(s.entries, dir))
    case Change(c) => s.(past := s.past + [After(s.past[s.Now()], c)])
  }

  // ---- The invariant ----

  // An index answer is git's for the index at instant t.
  predicate SaidAt(git: Git, past: World, slot: Slot, answer: Answer, t: nat) {
    t < |past| && (slot.question.Index? ==> answer == git(slot, At(past, slot.dir, t)))
  }

  predicate EntryGood(git: Git, past: World, slot: Slot, e: Entry) {
    && e.dir == slot.dir
    && e.source.readAt <= e.source.ranAt < |past|
    && SaidAt(git, past, slot, e.answer, e.source.ranAt)
    && e.fingerprint == IdentityRead(past, slot, e.source.readAt)
    && (slot.question.Index? ==> e.fingerprint.Some?)
  }

  predicate CallGood(git: Git, past: World, c: Call) {
    && c.readAt < |past|
    && c.identity == IdentityRead(past, c.slot, c.readAt)
    && (c.Ran? ==> c.readAt <= c.ranAt && SaidAt(git, past, c.slot, c.answer, c.ranAt))
  }

  // A hit repeats what git said to an earlier call about the same directory and
  // question, made under the identity this call read.
  predicate HitGood(git: Git, past: World, h: Hit) {
    && h.readAt <= h.recalledAt < |past|
    && h.source.readAt <= h.source.ranAt <= h.recalledAt
    && SaidAt(git, past, h.slot, h.answer, h.source.ranAt)
    && IdentityRead(past, h.slot, h.readAt) == IdentityRead(past, h.slot, h.source.readAt)
    && (h.slot.question.Index? ==> At(past, h.slot.dir, h.readAt).Some?)
  }

  ghost predicate Good(git: Git, s: State) {
    && |s.past| > 0 && |s.entries| <= MAX_ENTRIES
    && (forall k :: k in s.entries ==> EntryGood(git, s.past, k, s.entries[k]))
    && (forall p :: p in s.calls ==> CallGood(git, s.past, s.calls[p]))
    && (forall i :: 0 <= i < |s.hits| ==> HitGood(git, s.past, s.hits[i]))
  }

  lemma HitKeepsGood(git: Git, s: State, pid: nat)
    requires Good(git, s) && Enabled(s, Recall(pid))
    requires Recalled(s.entries, s.calls[pid].slot, s.calls[pid].identity).Some?
    ensures Good(git, HitStep(s, pid))
  {
    var c := s.calls[pid];
    assert EntryGood(git, s.past, c.slot, s.entries[c.slot]);
    assert HitGood(git, s.past, HitStep(s, pid).hits[|s.hits|]);
  }

  lemma MissKeepsGood(git: Git, s: State, pid: nat)
    requires Good(git, s) && Enabled(s, Recall(pid))
    ensures Good(git, MissStep(s, pid))
  {
    var entries := AfterRecall(s.entries, s.calls[pid].slot, s.calls[pid].identity);
    FewerKeysFewerEntries(s.entries, entries);
    assert CallGood(git, s.past, s.calls[pid]);
  }

  lemma RememberKeepsGood(git: Git, s: State, c: Call)
    requires Good(git, s) && CallGood(git, s.past, c) && c.Ran?
    requires c.slot.question.Index? ==> c.identity.Some?
    ensures Good(git, RememberStep(s, c))
  {
    var e := Entry(c.slot.dir, c.answer, c.identity, Source(c.readAt, c.ranAt));
    RememberStaysWithinLimit(s.entries, c.slot, e);
    assert EntryGood(git, s.past, c.slot, e);
  }

  lemma ForgetKeepsGood(git: Git, s: State, dir: Name)
    requires Good(git, s)
    ensures Good(git, s.(entries := AfterForget(s.entries, dir)))
  {
    FewerKeysFewerEntries(s.entries, AfterForget(s.entries, dir));
  }

  lemma KeepKeepsGood(git: Git, s: State, c: Call, outcome: Outcome)
    requires Good(git, s) && CallGood(git, s.past, c) && c.Ran?
    ensures Good(git, KeepStep(s, c, outcome))
  {
    if outcome.Failed? {
      ForgetKeepsGood(git, s, c.slot.dir);
    } else if c.slot.question.Layout? || (c.identity.Some? && outcome.Fits?) {
      RememberKeepsGood(git, s, c);
    }
  }

  lemma ChangeKeepsGood(git: Git, s: State, world: map<Name, Identity>)
    requires Good(git, s)
    ensures Good(git, s.(past := s.past + [world]))
  {
    var past := s.past + [world];
    assert forall t :: 0 <= t < |s.past| ==> past[t] == s.past[t];
    forall k | k in s.entries ensures EntryGood(git, past, k, s.entries[k]) {
      assert EntryGood(git, s.past, k, s.entries[k]);
    }
    forall p | p in s.calls ensures CallGood(git, past, s.calls[p]) {
      assert CallGood(git, s.past, s.calls[p]);
    }
    forall i | 0 <= i < |s.hits| ensures HitGood(git, past, s.hits[i]) {
      assert HitGood(git, s.past, s.hits[i]);
    }
  }

  lemma StepKeepsGood(git: Git, s: State, op: Op)
    requires Good(git, s) && Enabled(s, op)
    ensures Good(git, Step(git, s, op))
  {
    match op
    case Ask(pid, slot) =>
    case Recall(pid) =>
      if Recalled(s.entries, s.calls[pid].slot, s.calls[pid].identity).Some? {
        HitKeepsGood(git, s, pid);
      } else {
        MissKeepsGood(git, s, pid);
      }
    case RunGit(pid, layout) => assert CallGood(git, s.past, s.calls[pid]);
    case Keep(pid, outcome) => KeepKeepsGood(git, s.(calls := s.calls - {pid}), s.calls[pid], outcome);
    case Forget(dir) => ForgetKeepsGood(git, s, dir);
    case Change(c) => ChangeKeepsGood(git, s, After(s.past[s.Now()], c));
  }

  // ---- Whole runs ----

  function Start(world: map<Name, Identity>): State {
    State(map[], [world], map[], [])
  }

  function Turn(git: Git, s: State, op: Op): State {
    if Enabled(s, op) then Step(git, s, op) else s
  }

  lemma TurnKeepsGood(git: Git, s: State, op: Op)
    requires Good(git, s)
    ensures Good(git, Turn(git, s, op))
  {
    if Enabled(s, op) { StepKeepsGood(git, s, op); }
  }

  function RunFrom(git: Git, s: State, ops: seq<Op>, n: nat): State
    requires n <= |ops|
  {
    if n == 0 then s else Turn(git, RunFrom(git, s, ops, n - 1), ops[n - 1])
  }

  function Run(git: Git, s: State, ops: seq<Op>): State {
    RunFrom(git, s, ops, |ops|)
  }

  lemma {:induction false} RunKeepsGood(git: Git, s: State, ops: seq<Op>, n: nat)
    requires n <= |ops| && Good(git, s)
    ensures Good(git, RunFrom(git, s, ops, n))
  {
    if n > 0 {
      RunKeepsGood(git, s, ops, n - 1);
      TurnKeepsGood(git, RunFrom(git, s, ops, n - 1), ops[n - 1]);
    }
  }

  // Main result: the invariant holds in every run, in every interleaving.
  lemma ReachableIsGood(git: Git, world: map<Name, Identity>, ops: seq<Op>)
    ensures Good(git, Run(git, Start(world), ops))
  {
    assert Good(git, Start(world));
    RunKeepsGood(git, Start(world), ops, |ops|);
  }

  // ---- What a recalled answer is worth ----

  // The answer is what git would say at some instant of the call.
  ghost predicate HitWithin(git: Git, past: World, h: Hit) {
    exists t: nat :: h.readAt <= t <= h.recalledAt && SaidAt(git, past, h.slot, h.answer, t)
  }

  // The answer is what git would say under the identity read at the start.
  predicate HitForRead(git: Git, past: World, h: Hit) {
    SaidAt(git, past, h.slot, h.answer, h.readAt)
  }

  // An identity that returns hides no other answer of git in between.
  ghost predicate ReturnsTruly(git: Git, past: World, slot: Slot) {
    forall a: nat, b: nat, c: nat :: a <= b <= c < |past| && Returns(past, slot.dir, a, c) ==>
      git(slot, At(past, slot.dir, b)) == git(slot, At(past, slot.dir, a))
  }

  predicate Returns(past: World, dir: Name, a: nat, c: nat)
    requires a < |past| && c < |past|
  {
    At(past, dir, a).Some? && At(past, dir, a) == At(past, dir, c)
  }

  // An index, once there, never changes git's answer.
  ghost predicate Steady(git: Git, past: World, slot: Slot) {
    forall a: nat, b: nat :: a <= b < |past| && At(past, slot.dir, a).Some? ==>
      git(slot, At(past, slot.dir, b)) == git(slot, At(past, slot.dir, a))
  }

  lemma TrueReturnsAnswerWithin(git: Git, past: World, h: Hit)
    requires HitGood(git, past, h) && h.slot.question.Index? && ReturnsTruly(git, past, h.slot)
    ensures HitWithin(git, past, h)
  {
    var t := if h.readAt <= h.source.ranAt then h.source.ranAt else h.readAt;
    assert Returns(past, h.slot.dir, h.source.readAt, h.readAt);
    assert SaidAt(git, past, h.slot, h.answer, t);
  }

  // A recalled index answer is the one for the identity read at the start of the
  // call if and only if git answers alike for what the index was when the filing
  // call read it and when it ran git; in particular if it stood still meanwhile.
  lemma RecalledIsForTheIdentityRead(git: Git, world: map<Name, Identity>, ops: seq<Op>, i: nat)
    requires i < |Run(git, Start(world), ops).hits| && Run(git, Start(world), ops).hits[i].slot.question.Index?
    ensures var s := Run(git, Start(world), ops);
      var h := s.hits[i];
      && h.source.readAt <= h.source.ranAt < |s.past|
      && (HitForRead(git, s.past, h) <==>
        git(h.slot, At(s.past, h.slot.dir, h.source.ranAt)) == git(h.slot, At(s.past, h.slot.dir, h.source.readAt)))
      && (At(s.past, h.slot.dir, h.source.ranAt) == At(s.past, h.slot.dir, h.source.readAt) ==>
        HitForRead(git, s.past, h))
  {
    ReachableIsGood(git, world, ops);
    assert HitGood(git, Run(git, Start(world), ops).past, Run(git, Start(world), ops).hits[i]);
  }

  // A call during which the index stands still, where no identity returns falsely,
  // gets the answer for it.
  lemma StillIndexIsAnswered(git: Git, world: map<Name, Identity>, ops: seq<Op>, i: nat)
    requires i < |Run(git, Start(world), ops).hits| && Run(git, Start(world), ops).hits[i].slot.question.Index?
    requires ReturnsTruly(git, Run(git, Start(world), ops).past, Run(git, Start(world), ops).hits[i].slot)
    ensures var s := Run(git, Start(world), ops);
      var h := s.hits[i];
      && h.readAt <= h.recalledAt < |s.past|
      && ((forall t :: h.readAt <= t <= h.recalledAt ==>
        At(s.past, h.slot.dir, t) == At(s.past, h.slot.dir, h.readAt)) ==>
        HitForRead(git, s.past, h))
  {
    ReachableIsGood(git, world, ops);
    var s := Run(git, Start(world), ops);
    assert HitGood(git, s.past, s.hits[i]);
    TrueReturnsAnswerWithin(git, s.past, s.hits[i]);
  }
}
