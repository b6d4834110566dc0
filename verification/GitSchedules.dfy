// What every schedule of calls can expect around a given sequence of index
// changes, and the schedules that show no more can be expected.
//
// Proved: all schedules are answered within the calls exactly if no identity
// returns over another answer of git, and answered for the identity read exactly
// if no change of an index that is there changes git's answer. For every other
// sequence of changes a schedule is built that is answered wrongly.
module GitSchedules {
  import opened GitCache
  import opened GitCalls
  import opened Wrappers

  // ---- Runs with given changes of the indexes ----

  function Extended(cs: seq<IndexChange>, op: Op): seq<IndexChange> {
    if op.Change? then cs + [op.change] else cs
  }

  // The changes among the first n steps.
  function ChangesTo(ops: seq<Op>, n: nat): seq<IndexChange>
    requires n <= |ops|
  {
    if n == 0 then []
    else Extended(ChangesTo(ops, n - 1), ops[n - 1])
  }

  function ChangesIn(ops: seq<Op>): seq<IndexChange> {
    ChangesTo(ops, |ops|)
  }

  lemma {:induction false} ChangesAgree(a: seq<Op>, b: seq<Op>, n: nat)
    requires n <= |a| && n <= |b| && forall i :: 0 <= i < n ==> a[i] == b[i]
    ensures ChangesTo(a, n) == ChangesTo(b, n)
  {
    if n > 0 { ChangesAgree(a, b, n - 1); }
  }

  lemma {:induction false} ChangesConcatTo(a: seq<Op>, b: seq<Op>, n: nat)
    requires n <= |b|
    ensures ChangesTo(a + b, |a| + n) == ChangesIn(a) + ChangesTo(b, n)
  {
    if n == 0 { ChangesAgree(a + b, a, |a|); } else { ChangesConcatTo(a, b, n - 1); }
  }

  lemma ChangesConcat(a: seq<Op>, b: seq<Op>)
    ensures ChangesIn(a + b) == ChangesIn(a) + ChangesIn(b)
  {
    ChangesConcatTo(a, b, |b|);
  }

  predicate Quiet(ops: seq<Op>) {
    forall i :: 0 <= i < |ops| ==> !ops[i].Change?
  }

  lemma {:induction false} QuietHasNoChanges(ops: seq<Op>, n: nat)
    requires n <= |ops| && Quiet(ops)
    ensures ChangesTo(ops, n) == []
  {
    if n > 0 { QuietHasNoChanges(ops, n - 1); }
  }

  // Calls among the changes leave the changes as they are.
  lemma QuietBetween(a: seq<Op>, quiet: seq<Op>, b: seq<Op>)
    requires Quiet(quiet)
    ensures ChangesIn(a + quiet + b) == ChangesIn(a) + ChangesIn(b)
  {
    ChangesConcat(a, quiet);
    ChangesConcat(a + quiet, b);
    QuietHasNoChanges(quiet, |quiet|);
    assert ChangesIn(a) + [] == ChangesIn(a);
  }

  // The indexes after each of the first n changes.
  function PastOf(world: map<Name, Identity>, cs: seq<IndexChange>, n: nat): (past: World)
    requires n <= |cs|
    ensures |past| == n + 1
  {
    if n == 0 then [world] else
      var before := PastOf(world, cs, n - 1);
      before + [After(before[n - 1], cs[n - 1])]
  }

  lemma {:induction false} PastAgrees(world: map<Name, Identity>, a: seq<IndexChange>, b: seq<IndexChange>, n: nat)
    requires n <= |a| && n <= |b| && forall i :: 0 <= i < n ==> a[i] == b[i]
    ensures PastOf(world, a, n) == PastOf(world, b, n)
  {
    if n > 0 { PastAgrees(world, a, b, n - 1); }
  }

  // A run of any steps, from left to right.
  function Fold<S, O>(turn: (S, O) -> S, s: S, ops: seq<O>, n: nat): S
    requires n <= |ops|
  {
    if n == 0 then s else turn(Fold(turn, s, ops, n - 1), ops[n - 1])
  }

  lemma {:induction false} FoldAgrees<S, O>(turn: (S, O) -> S, s: S, a: seq<O>, b: seq<O>, n: nat)
    requires n <= |a| && n <= |b| && forall i :: 0 <= i < n ==> a[i] == b[i]
    ensures Fold(turn, s, a, n) == Fold(turn, s, b, n)
  {
    if n > 0 { FoldAgrees(turn, s, a, b, n - 1); }
  }

  lemma {:induction false} FoldConcat<S, O>(turn: (S, O) -> S, s: S, a: seq<O>, b: seq<O>, n: nat)
    requires n <= |b|
    ensures Fold(turn, s, a + b, |a| + n) == Fold(turn, Fold(turn, s, a, |a|), b, n)
  {
    if n == 0 { FoldAgrees(turn, s, a + b, a, |a|); } else { FoldConcat(turn, s, a, b, n - 1); }
  }

  function TurnOf(git: Git): (State, Op) -> State {
    (s, op) => Turn(git, s, op)
  }

  lemma {:induction false} RunIsFold(git: Git, s: State, ops: seq<Op>, n: nat)
    requires n <= |ops|
    ensures RunFrom(git, s, ops, n) == Fold(TurnOf(git), s, ops, n)
  {
    if n > 0 { RunIsFold(git, s, ops, n - 1); }
  }

  lemma RunNext(git: Git, s: State, ops: seq<Op>, n: nat)
    requires n < |ops|
    ensures RunFrom(git, s, ops, n + 1) == Turn(git, RunFrom(git, s, ops, n), ops[n])
  {
  }

  lemma RunConcat(git: Git, s: State, a: seq<Op>, b: seq<Op>)
    ensures Run(git, s, a + b) == Run(git, Run(git, s, a), b)
  {
    RunIsFold(git, s, a + b, |a| + |b|);
    RunIsFold(git, s, a, |a|);
    RunIsFold(git, Run(git, s, a), b, |b|);
    FoldConcat(TurnOf(git), s, a, b, |b|);
  }

  lemma RunOne(git: Git, s: State, op: Op)
    ensures Run(git, s, [op]) == Turn(git, s, op)
  {
    assert RunFrom(git, s, [op], 0) == s;
  }

  lemma TurnsPast(git: Git, s: State, op: Op)
    requires |s.past| > 0
    ensures Turn(git, s, op).past == if op.Change? then s.past + [After(s.past[s.Now()], op.change)] else s.past
  {
  }

  lemma PastNext(world: map<Name, Identity>, cs: seq<IndexChange>, c: IndexChange)
    ensures PastOf(world, cs + [c], |cs| + 1) == PastOf(world, cs, |cs|) + [After(PastOf(world, cs, |cs|)[|cs|], c)]
  {
    PastAgrees(world, cs + [c], cs, |cs|);
  }

  lemma PastAfterTurn(git: Git, world: map<Name, Identity>, s: State, cs: seq<IndexChange>, op: Op)
    requires s.past == PastOf(world, cs, |cs|)
    ensures var after := Extended(cs, op); Turn(git, s, op).past == PastOf(world, after, |after|)
  {
    TurnsPast(git, s, op);
    if op.Change? { PastNext(world, cs, op.change); }
  }

  // The indexes' past depends on the changes in the run only.
  lemma {:induction false} PastIsChanges(git: Git, world: map<Name, Identity>, ops: seq<Op>, n: nat)
    requires n <= |ops|
    ensures var cs := ChangesTo(ops, n); RunFrom(git, Start(world), ops, n).past == PastOf(world, cs, |cs|)
  {
    if n > 0 {
      PastIsChanges(git, world, ops, n - 1);
      PastAfterTurn(git, world, RunFrom(git, Start(world), ops, n - 1), ChangesTo(ops, n - 1), ops[n - 1]);
    }
  }

  // The changes lo..hi as steps.
  function ChangeOps(cs: seq<IndexChange>, lo: nat, hi: nat): seq<Op>
    requires lo <= hi <= |cs|
    decreases hi
  {
    if lo == hi then [] else ChangeOps(cs, lo, hi - 1) + [Change(cs[hi - 1])]
  }

  lemma {:induction false} ChangeOpsAre(cs: seq<IndexChange>, lo: nat, hi: nat)
    requires lo <= hi <= |cs|
    ensures ChangesIn(ChangeOps(cs, lo, hi)) == cs[lo..hi]
    decreases hi
  {
    if lo < hi {
      ChangeOpsAre(cs, lo, hi - 1);
      ChangesConcat(ChangeOps(cs, lo, hi - 1), [Change(cs[hi - 1])]);
      assert ChangesTo([Change(cs[hi - 1])], 0) == [];
      assert cs[lo..hi] == cs[lo..hi - 1] + [cs[hi - 1]];
    }
  }

  lemma {:induction false} RunChanges(git: Git, world: map<Name, Identity>, cs: seq<IndexChange>, lo: nat, hi: nat,
      s: State)
    requires lo <= hi <= |cs| && s.past == PastOf(world, cs, lo)
    ensures Run(git, s, ChangeOps(cs, lo, hi)) == s.(past := PastOf(world, cs, hi))
    decreases hi
  {
    if lo == hi {
      assert s == State(s.entries, s.past, s.calls, s.hits);
    } else {
      RunChanges(git, world, cs, lo, hi - 1, s);
      RunConcat(git, s, ChangeOps(cs, lo, hi - 1), [Change(cs[hi - 1])]);
      RunOne(git, s.(past := PastOf(world, cs, hi - 1)), Change(cs[hi - 1]));
    }
  }

  // ---- Schedules that mislead ----

  // Caller 0 reads the identity at instant a and hears git at instant b; caller 1
  // reads at instant a too, or later, and recalls what caller 0 filed.
  const FILING: seq<Op> := [Recall(0), RunGit(0, Answer("", "")), Keep(0, Fits)]

  function Filed(git: Git, past: World, slot: Slot, a: nat, b: nat): Entry
    requires a < |past| && b < |past|
  {
    Entry(slot.dir, git(slot, At(past, slot.dir, b)), At(past, slot.dir, a), Source(a, b))
  }

  lemma MissesThere(git: Git, past: World, slot: Slot, id: Option<Identity>, a: nat, others: map<nat, Call>)
    requires |past| > 0
    ensures Turn(git, State(map[], past, others[0 := Asked(slot, id, a)], []), Recall(0)) ==
      State(map[], past, others[0 := Missed(slot, id, a)], [])
  {
    assert others[0 := Asked(slot, id, a)][0 := Missed(slot, id, a)] == others[0 := Missed(slot, id, a)];
  }

  lemma HearsThere(git: Git, past: World, slot: Slot, id: Option<Identity>, a: nat, others: map<nat, Call>)
    requires |past| > 0 && slot.question.Index?
    ensures var now := |past| - 1;
      Turn(git, State(map[], past, others[0 := Missed(slot, id, a)], []), RunGit(0, Answer("", ""))) ==
      State(map[], past, others[0 := Ran(slot, id, a, git(slot, At(past, slot.dir, now)), now)], [])
  {
    var ran := Ran(slot, id, a, git(slot, At(past, slot.dir, |past| - 1)), |past| - 1);
    assert others[0 := Missed(slot, id, a)][0 := ran] == others[0 := ran];
  }

  lemma FilesThere(git: Git, past: World, slot: Slot, id: Option<Identity>, a: nat, b: nat, answer: Answer,
      others: map<nat, Call>)
    requires |past| > 0 && slot.question.Index? && id.Some? && 0 !in others
    ensures Turn(git, State(map[], past, others[0 := Ran(slot, id, a, answer, b)], []), Keep(0, Fits)) ==
      State(map[slot := Entry(slot.dir, answer, id, Source(a, b))], past, others, [])
  {
    assert others[0 := Ran(slot, id, a, answer, b)] - {0} == others;
  }

  lemma RunThree(git: Git, s: State, s1: State, s2: State, s3: State, x: Op, y: Op, z: Op)
    requires Turn(git, s, x) == s1 && Turn(git, s1, y) == s2 && Turn(git, s2, z) == s3
    ensures Run(git, s, [x, y, z]) == s3
  {
    RunNext(git, s, [x, y, z], 0);
    RunNext(git, s, [x, y, z], 1);
    RunNext(git, s, [x, y, z], 2);
  }

  // With caller 0 past its reading and an empty cache, filing leaves just its entry.
  lemma Files(git: Git, past: World, slot: Slot, a: nat, others: map<nat, Call>)
    requires slot.question.Index? && 0 !in others && a < |past| && At(past, slot.dir, a).Some?
    ensures Run(git, State(map[], past, others[0 := Asked(slot, At(past, slot.dir, a), a)], []), FILING) ==
      State(map[slot := Filed(git, past, slot, a, |past| - 1)], past, others, [])
  {
    var id, now := At(past, slot.dir, a), |past| - 1;
    var answer := git(slot, At(past, slot.dir, now));
    MissesThere(git, past, slot, id, a, others);
    HearsThere(git, past, slot, id, a, others);
    FilesThere(git, past, slot, id, a, now, answer, others);
    RunThree(git, State(map[], past, others[0 := Asked(slot, id, a)], []),
             State(map[], past, others[0 := Missed(slot, id, a)], []),
             State(map[], past, others[0 := Ran(slot, id, a, answer, now)], []),
             State(map[slot := Filed(git, past, slot, a, now)], past, others, []),
             Recall(0), RunGit(0, Answer("", "")), Keep(0, Fits));
  }

  // Caller 1, having read what caller 0 did, is answered from the entry.
  lemma Recalls(git: Git, past: World, slot: Slot, a: nat, b: nat, c: nat)
    requires slot.question.Index? && a < |past| && b < |past| && c < |past| && Returns(past, slot.dir, a, c)
    ensures var e := Filed(git, past, slot, a, b);
      Run(git, State(map[slot := e], past, map[1 := Asked(slot, At(past, slot.dir, c), c)], []), [Recall(1)]) ==
      State(map[slot := e], past, map[], [Hit(slot, c, |past| - 1, e.answer, e.source)])
  {
    var e := Filed(git, past, slot, a, b);
    var s := State(map[slot := e], past, map[1 := Asked(slot, At(past, slot.dir, c), c)], []);
    assert RunFrom(git, s, [Recall(1)], 0) == s;
    assert s.calls - {1} == map[];
  }

  lemma {:induction false} PastPrefix(world: map<Name, Identity>, cs: seq<IndexChange>, k: nat, n: nat)
    requires k <= n <= |cs|
    ensures PastOf(world, cs, n)[k] == PastOf(world, cs, k)[k]
    decreases n
  {
    if k < n { PastPrefix(world, cs, k, n - 1); }
  }

  // The first a changes, the callers' readings, the changes up to b, the filing.
  function FilingRun(cs: seq<IndexChange>, asks: seq<Op>, a: nat, b: nat): seq<Op>
    requires a <= b <= |cs|
  {
    ChangeOps(cs, 0, a) + asks + ChangeOps(cs, a, b) + FILING
  }

  // After the readings `others` is what the other callers do.
  ghost predicate Reads(git: Git, past: World, slot: Slot, a: nat, asks: seq<Op>, others: map<nat, Call>)
    requires a < |past|
  {
    Run(git, State(map[], past, map[], []), asks) ==
      State(map[], past, others[0 := Asked(slot, At(past, slot.dir, a), a)], [])
  }

  lemma ReadingLeaves(git: Git, world: map<Name, Identity>, cs: seq<IndexChange>, slot: Slot, a: nat, b: nat,
                      asks: seq<Op>, others: map<nat, Call>)
    requires a <= b <= |cs| && Reads(git, PastOf(world, cs, a), slot, a, asks, others)
    ensures var id := At(PastOf(world, cs, a), slot.dir, a);
      Run(git, Start(world), ChangeOps(cs, 0, a) + asks + ChangeOps(cs, a, b)) ==
      State(map[], PastOf(world, cs, b), others[0 := Asked(slot, id, a)], [])
  {
    var start := ChangeOps(cs, 0, a);
    RunChanges(git, world, cs, 0, a, Start(world));
    RunConcat(git, Start(world), start, asks);
    var id := At(PastOf(world, cs, a), slot.dir, a);
    var s := State(map[], PastOf(world, cs, a), others[0 := Asked(slot, id, a)], []);
    RunChanges(git, world, cs, a, b, s);
    RunConcat(git, Start(world), start + asks, ChangeOps(cs, a, b));
  }

  lemma FilingLeaves(git: Git, world: map<Name, Identity>, cs: seq<IndexChange>, slot: Slot, a: nat, b: nat,
                     asks: seq<Op>, others: map<nat, Call>)
    requires a <= b <= |cs| && slot.question.Index? && 0 !in others
    requires At(PastOf(world, cs, b), slot.dir, a).Some?
    requires Reads(git, PastOf(world, cs, a), slot, a, asks, others)
    ensures var past := PastOf(world, cs, b);
      Run(git, Start(world), FilingRun(cs, asks, a, b)) ==
      State(map[slot := Filed(git, past, slot, a, b)], past, others, [])
  {
    ReadingLeaves(git, world, cs, slot, a, b, asks, others);
    PastPrefix(world, cs, a, b);
    Files(git, PastOf(world, cs, b), slot, a, others);
    RunConcat(git, Start(world), ChangeOps(cs, 0, a) + asks + ChangeOps(cs, a, b), FILING);
  }

  lemma FilingChanges(cs: seq<IndexChange>, asks: seq<Op>, a: nat, b: nat)
    requires a <= b <= |cs| && Quiet(asks)
    ensures ChangesIn(FilingRun(cs, asks, a, b)) == cs[..b]
  {
    var moved := ChangeOps(cs, 0, a) + asks + ChangeOps(cs, a, b);
    ChangeOpsAre(cs, 0, a);
    ChangeOpsAre(cs, a, b);
    QuietBetween(ChangeOps(cs, 0, a), asks, ChangeOps(cs, a, b));
    ChangesConcat(moved, FILING);
    QuietHasNoChanges(FILING, |FILING|);
    assert cs[0..a] + cs[a..b] + [] == cs[..b];
  }

  // ---- A schedule in which no instant of the call gives the answer ----

  // Caller 1 reads and recalls after the first c changes.
  function LateHalf(cs: seq<IndexChange>, slot: Slot, b: nat, c: nat): seq<Op>
    requires b <= c <= |cs|
  {
    ChangeOps(cs, b, c) + [Ask(1, slot), Recall(1)] + ChangeOps(cs, c, |cs|)
  }

  function LateSchedule(cs: seq<IndexChange>, slot: Slot, a: nat, b: nat, c: nat): seq<Op>
    requires a <= b <= c <= |cs|
  {
    FilingRun(cs, [Ask(0, slot)], a, b) + LateHalf(cs, slot, b, c)
  }

  lemma LateChanges(cs: seq<IndexChange>, slot: Slot, a: nat, b: nat, c: nat)
    requires a <= b <= c <= |cs|
    ensures ChangesIn(LateSchedule(cs, slot, a, b, c)) == cs
  {
    FilingChanges(cs, [Ask(0, slot)], a, b);
    ChangeOpsAre(cs, b, c);
    ChangeOpsAre(cs, c, |cs|);
    QuietBetween(ChangeOps(cs, b, c), [Ask(1, slot), Recall(1)], ChangeOps(cs, c, |cs|));
    ChangesConcat(FilingRun(cs, [Ask(0, slot)], a, b), LateHalf(cs, slot, b, c));
    assert cs[..b] + (cs[b..c] + cs[c..|cs|]) == cs;
  }

  // Caller 1 reads and is answered at the same instant.
  lemma ReadsAndRecalls(git: Git, past: World, slot: Slot, a: nat, b: nat, c: nat)
    requires slot.question.Index? && a < |past| && b < |past| && |past| == c + 1 && Returns(past, slot.dir, a, c)
    ensures var e := Filed(git, past, slot, a, b);
      Run(git, State(map[slot := e], past, map[], []), [Ask(1, slot), Recall(1)]) ==
      State(map[slot := e], past, map[], [Hit(slot, c, c, e.answer, e.source)])
  {
    var s := State(map[slot := Filed(git, past, slot, a, b)], past, map[], []);
    RunConcat(git, s, [Ask(1, slot)], [Recall(1)]);
    assert [Ask(1, slot)] + [Recall(1)] == [Ask(1, slot), Recall(1)];
    RunOne(git, s, Ask(1, slot));
    Recalls(git, past, slot, a, b, c);
  }

  // The second half from the state the filing leaves.
  lemma LateHalfRuns(git: Git, world: map<Name, Identity>, cs: seq<IndexChange>, slot: Slot, a: nat, b: nat,
      c: nat, e: Entry)
    requires a <= b <= c <= |cs| && slot.question.Index? && Returns(PastOf(world, cs, c), slot.dir, a, c)
    requires e == Filed(git, PastOf(world, cs, c), slot, a, b)
    ensures Run(git, State(map[slot := e], PastOf(world, cs, b), map[], []), LateHalf(cs, slot, b, c)) ==
      State(map[slot := e], PastOf(world, cs, |cs|), map[], [Hit(slot, c, c, e.answer, e.source)])
  {
    var s, past := State(map[slot := e], PastOf(world, cs, b), map[], []), PastOf(world, cs, c);
    var moved, asks := ChangeOps(cs, b, c), [Ask(1, slot), Recall(1)];
    RunChanges(git, world, cs, b, c, s);
    RunConcat(git, s, moved, asks);
    ReadsAndRecalls(git, past, slot, a, b, c);
    RunConcat(git, s, moved + asks, ChangeOps(cs, c, |cs|));
    RunChanges(git, world, cs, c, |cs|, State(map[slot := e], past, map[], [Hit(slot, c, c, e.answer, e.source)]));
  }

  lemma LateRuns(git: Git, world: map<Name, Identity>, cs: seq<IndexChange>, slot: Slot, a: nat, b: nat, c: nat)
    requires a <= b <= c <= |cs| && slot.question.Index? && Returns(PastOf(world, cs, c), slot.dir, a, c)
    ensures var e := Filed(git, PastOf(world, cs, c), slot, a, b);
      Run(git, Start(world), LateSchedule(cs, slot, a, b, c)) ==
      State(map[slot := e], PastOf(world, cs, |cs|), map[], [Hit(slot, c, c, e.answer, e.source)])
  {
    var asks, past := [Ask(0, slot)], PastOf(world, cs, a);
    RunOne(git, State(map[], past, map[], []), Ask(0, slot));
    assert map[0 := Asked(slot, At(past, slot.dir, a), a)] == map[][0 := Asked(slot, At(past, slot.dir, a), a)];
    assert Reads(git, past, slot, a, asks, map[]);
    PastPrefix(world, cs, a, b);
    PastPrefix(world, cs, a, c);
    PastPrefix(world, cs, b, c);
    FilingLeaves(git, world, cs, slot, a, b, asks, map[]);
    LateHalfRuns(git, world, cs, slot, a, b, c, Filed(git, PastOf(world, cs, c), slot, a, b));
    RunConcat(git, Start(world), FilingRun(cs, asks, a, b), LateHalf(cs, slot, b, c));
  }

  // Every answer recalled for the slot in the run is git's at an instant of its call.
  ghost predicate AllWithin(git: Git, world: map<Name, Identity>, ops: seq<Op>, slot: Slot) {
    var s := Run(git, Start(world), ops);
    forall i :: 0 <= i < |s.hits| && s.hits[i].slot == slot ==> HitWithin(git, s.past, s.hits[i])
  }

  lemma RecalledWithinTheCall(git: Git, world: map<Name, Identity>, ops: seq<Op>, slot: Slot)
    requires slot.question.Index?
    requires ReturnsTruly(git, PastOf(world, ChangesIn(ops), |ChangesIn(ops)|), slot)
    ensures AllWithin(git, world, ops, slot)
  {
    ReachableIsGood(git, world, ops);
    PastIsChanges(git, world, ops, |ops|);
    var s := Run(git, Start(world), ops);
    forall i | 0 <= i < |s.hits| && s.hits[i].slot == slot ensures HitWithin(git, s.past, s.hits[i]) {
      assert HitGood(git, s.past, s.hits[i]);
      TrueReturnsAnswerWithin(git, s.past, s.hits[i]);
    }
  }

  lemma LateIsNotWithin(git: Git, world: map<Name, Identity>, cs: seq<IndexChange>, slot: Slot, a: nat, b: nat, c: nat)
    requires a <= b <= c <= |cs| && slot.question.Index?
    requires var past := PastOf(world, cs, |cs|);
      Returns(past, slot.dir, a, c) && git(slot, At(past, slot.dir, b)) != git(slot, At(past, slot.dir, a))
    ensures !AllWithin(git, world, LateSchedule(cs, slot, a, b, c), slot)
  {
    PastPrefix(world, cs, a, |cs|);
    PastPrefix(world, cs, b, |cs|);
    PastPrefix(world, cs, c, |cs|);
    PastPrefix(world, cs, a, c);
    PastPrefix(world, cs, b, c);
    LateRuns(git, world, cs, slot, a, b, c);
    var s := Run(git, Start(world), LateSchedule(cs, slot, a, b, c));
    var h := s.hits[0];
    assert !SaidAt(git, s.past, h.slot, h.answer, c);
  }

  // Main result: for any sequence of index changes, every schedule of calls around
  // it is answered within the calls if and only if no identity returns over
  // another answer of git.
  lemma AnsweredWithinExactly(git: Git, world: map<Name, Identity>, cs: seq<IndexChange>, slot: Slot)
    requires slot.question.Index?
    ensures (forall ops :: ChangesIn(ops) == cs ==> AllWithin(git, world, ops, slot)) <==>
      ReturnsTruly(git, PastOf(world, cs, |cs|), slot)
  {
    var past := PastOf(world, cs, |cs|);
    if ReturnsTruly(git, past, slot) {
      forall ops | ChangesIn(ops) == cs ensures AllWithin(git, world, ops, slot) {
        RecalledWithinTheCall(git, world, ops, slot);
      }
    } else {
      var a: nat, b: nat, c: nat :| a <= b <= c < |past| && Returns(past, slot.dir, a, c) &&
        git(slot, At(past, slot.dir, b)) != git(slot, At(past, slot.dir, a));
      LateChanges(cs, slot, a, b, c);
      LateIsNotWithin(git, world, cs, slot, a, b, c);
    }
  }

  // An index that has moved on from an identity does not return to it.
  ghost predicate NeverReturns(past: World, dir: Name) {
    forall a: nat, b: nat, c: nat :: a <= b <= c < |past| && Returns(past, dir, a, c) ==>
      At(past, dir, b) == At(past, dir, a)
  }

  function Telling(id: Option<Identity>): Git {
    (slot, index) => Answer(if index == id then "same" else "other", "")
  }

  ghost predicate EveryScheduleWithin(git: Git, world: map<Name, Identity>, cs: seq<IndexChange>, slot: Slot) {
    forall ops :: ChangesIn(ops) == cs ==> AllWithin(git, world, ops, slot)
  }

  // Main result: whatever git answers, every schedule is answered within the calls
  // if and only if no identity returns.
  lemma AnsweredWithinForEveryGit(world: map<Name, Identity>, cs: seq<IndexChange>, slot: Slot)
    requires slot.question.Index?
    ensures (forall git: Git :: EveryScheduleWithin(git, world, cs, slot)) <==>
      NeverReturns(PastOf(world, cs, |cs|), slot.dir)
  {
    var past := PastOf(world, cs, |cs|);
    if NeverReturns(past, slot.dir) {
      forall git: Git ensures EveryScheduleWithin(git, world, cs, slot) {
        assert ReturnsTruly(git, past, slot);
        AnsweredWithinExactly(git, world, cs, slot);
      }
    } else {
      var a: nat, b: nat, c: nat :| a <= b <= c < |past| && Returns(past, slot.dir, a, c) &&
        At(past, slot.dir, b) != At(past, slot.dir, a);
      var git := Telling(At(past, slot.dir, a));
      AnsweredWithinExactly(git, world, cs, slot);
      assert git(slot, At(past, slot.dir, b)) != git(slot, At(past, slot.dir, a));
      assert !EveryScheduleWithin(git, world, cs, slot);
    }
  }

  // ---- A schedule in which the identity read gives another answer ----

  // Caller 1 reads when caller 0 does and recalls what it filed.
  function EarlySchedule(cs: seq<IndexChange>, slot: Slot, a: nat, b: nat): seq<Op>
    requires a <= b <= |cs|
  {
    FilingRun(cs, [Ask(1, slot), Ask(0, slot)], a, b) + ([Recall(1)] + ChangeOps(cs, b, |cs|))
  }

  lemma EarlyChanges(cs: seq<IndexChange>, slot: Slot, a: nat, b: nat)
    requires a <= b <= |cs|
    ensures ChangesIn(EarlySchedule(cs, slot, a, b)) == cs
  {
    var first := FilingRun(cs, [Ask(1, slot), Ask(0, slot)], a, b);
    FilingChanges(cs, [Ask(1, slot), Ask(0, slot)], a, b);
    ChangeOpsAre(cs, b, |cs|);
    QuietBetween(first, [Recall(1)], ChangeOps(cs, b, |cs|));
    assert first + [Recall(1)] + ChangeOps(cs, b, |cs|) == first + ([Recall(1)] + ChangeOps(cs, b, |cs|));
    assert cs[..b] + cs[b..|cs|] == cs;
  }

  lemma BothRead(git: Git, past: World, slot: Slot, a: nat)
    requires |past| == a + 1 && slot.question.Index?
    ensures var others := map[1 := Asked(slot, At(past, slot.dir, a), a)];
      Reads(git, past, slot, a, [Ask(1, slot), Ask(0, slot)], others)
  {
    var s, id := State(map[], past, map[], []), At(past, slot.dir, a);
    assert RunFrom(git, s, [Ask(1, slot), Ask(0, slot)], 0) == s;
    assert RunFrom(git, s, [Ask(1, slot), Ask(0, slot)], 1) == State(map[], past, map[1 := Asked(slot, id, a)], []);
  }

  lemma EarlyRuns(git: Git, world: map<Name, Identity>, cs: seq<IndexChange>, slot: Slot, a: nat, b: nat)
    requires a <= b <= |cs| && slot.question.Index? && At(PastOf(world, cs, b), slot.dir, a).Some?
    ensures var e := Filed(git, PastOf(world, cs, b), slot, a, b);
      Run(git, Start(world), EarlySchedule(cs, slot, a, b)) ==
      State(map[slot := e], PastOf(world, cs, |cs|), map[], [Hit(slot, a, b, e.answer, e.source)])
  {
    var past, asks := PastOf(world, cs, b), [Ask(1, slot), Ask(0, slot)];
    var others := map[1 := Asked(slot, At(PastOf(world, cs, a), slot.dir, a), a)];
    var e := Filed(git, past, slot, a, b);
    BothRead(git, PastOf(world, cs, a), slot, a);
    FilingLeaves(git, world, cs, slot, a, b, asks, others);
    PastPrefix(world, cs, a, b);
    var filed := State(map[slot := e], past, others, []);
    Recalls(git, past, slot, a, b, a);
    RunChanges(git, world, cs, b, |cs|, State(map[slot := e], past, map[], [Hit(slot, a, b, e.answer, e.source)]));
    RunConcat(git, filed, [Recall(1)], ChangeOps(cs, b, |cs|));
    RunConcat(git, Start(world), FilingRun(cs, asks, a, b), [Recall(1)] + ChangeOps(cs, b, |cs|));
  }

  // Every answer recalled for the slot in the run is git's for the identity read.
  ghost predicate AllForRead(git: Git, world: map<Name, Identity>, ops: seq<Op>, slot: Slot) {
    var s := Run(git, Start(world), ops);
    forall i :: 0 <= i < |s.hits| && s.hits[i].slot == slot ==> HitForRead(git, s.past, s.hits[i])
  }

  lemma RecalledForTheRead(git: Git, world: map<Name, Identity>, ops: seq<Op>, slot: Slot)
    requires slot.question.Index? && Steady(git, PastOf(world, ChangesIn(ops), |ChangesIn(ops)|), slot)
    ensures AllForRead(git, world, ops, slot)
  {
    ReachableIsGood(git, world, ops);
    PastIsChanges(git, world, ops, |ops|);
    var s := Run(git, Start(world), ops);
    forall i | 0 <= i < |s.hits| && s.hits[i].slot == slot ensures HitForRead(git, s.past, s.hits[i]) {
      assert HitGood(git, s.past, s.hits[i]);
    }
  }

  lemma EarlyIsNotForRead(git: Git, world: map<Name, Identity>, cs: seq<IndexChange>, slot: Slot, a: nat, b: nat)
    requires a <= b <= |cs| && slot.question.Index?
    requires var past := PastOf(world, cs, |cs|);
      At(past, slot.dir, a).Some? && git(slot, At(past, slot.dir, b)) != git(slot, At(past, slot.dir, a))
    ensures !AllForRead(git, world, EarlySchedule(cs, slot, a, b), slot)
  {
    PastPrefix(world, cs, a, |cs|);
    PastPrefix(world, cs, b, |cs|);
    PastPrefix(world, cs, a, b);
    EarlyRuns(git, world, cs, slot, a, b);
    var s := Run(git, Start(world), EarlySchedule(cs, slot, a, b));
    var h := s.hits[0];
    assert !HitForRead(git, s.past, h);
  }

  // Main result: for any sequence of index changes, every schedule of calls around
  // it gets the answers for the identities read if and only if no change of an
  // index that is there changes git's answer.
  lemma AnsweredForReadExactly(git: Git, world: map<Name, Identity>, cs: seq<IndexChange>, slot: Slot)
    requires slot.question.Index?
    ensures (forall ops :: ChangesIn(ops) == cs ==> AllForRead(git, world, ops, slot)) <==>
      Steady(git, PastOf(world, cs, |cs|), slot)
  {
    var past := PastOf(world, cs, |cs|);
    if Steady(git, past, slot) {
      forall ops | ChangesIn(ops) == cs ensures AllForRead(git, world, ops, slot) {
        RecalledForTheRead(git, world, ops, slot);
      }
    } else {
      var a: nat, b: nat :| a <= b < |past| && At(past, slot.dir, a).Some? &&
        git(slot, At(past, slot.dir, b)) != git(slot, At(past, slot.dir, a));
      EarlyChanges(cs, slot, a, b);
      EarlyIsNotForRead(git, world, cs, slot, a, b);
    }
  }
}
