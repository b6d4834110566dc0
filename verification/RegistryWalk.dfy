// A walk over the registered roots that stops when its time budget is used up and goes on from there the next time.
// Proved: true means that every root was visited once, and any series of walks goes round the list without leaving
// out or repeating a root, however they are cut.
module RegistryWalk {
  // The remainder, by subtraction; what follows uses no other fact about `%`.
  function Mod(a: nat, n: nat): (r: nat)
    requires n > 0
    ensures r < n
    decreases a
  {
    if a < n then a else Mod(a - n, n)
  }

  lemma {:induction false} MulAtLeast(k: int, n: nat)
    requires k >= 1
    ensures k * n >= n
    decreases k
  {
    if k > 1 {
      MulAtLeast(k - 1, n);
      assert k * n == (k - 1) * n + n;
    }
  }

  lemma QuotientUnique(p: int, q: int, a: nat, b: nat, n: nat)
    requires p * n + a == q * n + b && a < n && b < n
    ensures a == b
  {
    assert (q - p) * n == a - b && (p - q) * n == b - a;
    if p < q { MulAtLeast(q - p, n); }
    if q < p { MulAtLeast(p - q, n); }
  }

  lemma {:induction false} ModDivides(a: nat, n: nat) returns (q: nat)
    requires n > 0
    ensures a == q * n + Mod(a, n)
    decreases a
  {
    if a < n {
      q := 0;
    } else {
      var p := ModDivides(a - n, n);
      q := p + 1;
    }
  }

  lemma ModIsRemainder(a: nat, n: nat)
    requires n > 0
    ensures a % n == Mod(a, n)
  {
    var q := ModDivides(a, n);
    assert a == a / n * n + a % n;
    QuotientUnique(a / n, q, a % n, Mod(a, n), n);
  }

  lemma {:induction false} ModAdd(a: nat, b: nat, n: nat)
    requires n > 0
    ensures Mod(Mod(a, n) + b, n) == Mod(a + b, n)
    decreases a
  {
    if a >= n { ModAdd(a - n, b, n); }
  }

  lemma ModOffset(a: nat, i: nat, n: nat)
    requires i < n
    ensures Mod(a + i, n) == if Mod(a, n) + i < n then Mod(a, n) + i else Mod(a, n) + i - n
  {
    ModAdd(a, i, n);
  }

  // ---- Which positions a series of walks visits ----

  // The number of visits in the first k walks.
  function VisitsIn(lengths: seq<nat>, k: nat): (total: nat)
    requires k <= |lengths|
  {
    if k == 0 then 0 else VisitsIn(lengths, k - 1) + lengths[k - 1]
  }

  function CursorAfter(cursor: nat, n: nat, lengths: seq<nat>, k: nat): nat
    requires n > 0 && k <= |lengths|
  {
    if k == 0 then cursor else Mod(CursorAfter(cursor, n, lengths, k - 1) + lengths[k - 1], n)
  }

  // The first m positions from the cursor.
  function Positions(cursor: nat, n: nat, m: nat): (at: seq<nat>)
    requires n > 0
    ensures |at| == m
  {
    if m == 0 then [] else Positions(cursor, n, m - 1) + [Mod(cursor + (m - 1), n)]
  }

  lemma {:induction false} PositionAt(cursor: nat, n: nat, m: nat, j: nat)
    requires n > 0 && j < m
    ensures Positions(cursor, n, m)[j] == Mod(cursor + j, n)
  {
    if j < m - 1 { PositionAt(cursor, n, m - 1, j); }
  }

  // The positions of the first k walks, one after another.
  function Visited(cursor: nat, n: nat, lengths: seq<nat>, k: nat): seq<nat>
    requires n > 0 && k <= |lengths|
  {
    if k == 0 then [] else
      Visited(cursor, n, lengths, k - 1) + Positions(CursorAfter(cursor, n, lengths, k - 1), n, lengths[k - 1])
  }

  lemma OffsetMovesOn(cursor: nat, offset: nat, m: nat, n: nat)
    requires n > 0 && Mod(cursor, n) == Mod(offset, n)
    ensures Mod(Mod(cursor + m, n), n) == Mod(offset + m, n)
  {
    ModAdd(cursor, m, n);
    ModAdd(offset, m, n);
    ModAdd(cursor + m, 0, n);
  }

  lemma {:induction false} CursorIsOffset(cursor: nat, n: nat, lengths: seq<nat>, k: nat)
    requires n > 0 && k <= |lengths|
    ensures Mod(CursorAfter(cursor, n, lengths, k), n) == Mod(cursor + VisitsIn(lengths, k), n)
  {
    if k > 0 {
      CursorIsOffset(cursor, n, lengths, k - 1);
      OffsetMovesOn(CursorAfter(cursor, n, lengths, k - 1), cursor + VisitsIn(lengths, k - 1), lengths[k - 1], n);
    }
  }

  lemma {:induction false} VisitedCount(cursor: nat, n: nat, lengths: seq<nat>, k: nat)
    requires n > 0 && k <= |lengths|
    ensures |Visited(cursor, n, lengths, k)| == VisitsIn(lengths, k)
  {
    if k > 0 { VisitedCount(cursor, n, lengths, k - 1); }
  }

  // The j-th visit of the last walk is as far from the first cursor as the visits
  // before it and j.
  lemma LastWalkGoesOn(cursor: nat, n: nat, lengths: seq<nat>, k: nat, j: nat)
    requires n > 0 && 0 < k <= |lengths| && j < lengths[k - 1]
    ensures Positions(CursorAfter(cursor, n, lengths, k - 1), n, lengths[k - 1])[j] ==
      Mod(cursor + (VisitsIn(lengths, k - 1) + j), n)
  {
    var c, total := CursorAfter(cursor, n, lengths, k - 1), VisitsIn(lengths, k - 1);
    PositionAt(c, n, lengths[k - 1], j);
    CursorIsOffset(cursor, n, lengths, k - 1);
    ModAdd(c, j, n);
    ModAdd(cursor + total, j, n);
  }

  // Main result: the walks together go round the list: the j-th visit of the whole
  // series is at `cursor + j` modulo the number of roots, wherever they were cut.
  lemma {:induction false} WalksGoRound(cursor: nat, n: nat, lengths: seq<nat>, k: nat, j: nat)
    requires n > 0 && k <= |lengths| && j < |Visited(cursor, n, lengths, k)|
    ensures Visited(cursor, n, lengths, k)[j] == (cursor + j) % n
  {
    ModIsRemainder(cursor + j, n);
    VisitedCount(cursor, n, lengths, k - 1);
    if j < VisitsIn(lengths, k - 1) {
      WalksGoRound(cursor, n, lengths, k - 1, j);
    } else {
      LastWalkGoesOn(cursor, n, lengths, k, j - VisitsIn(lengths, k - 1));
    }
  }

  lemma {:induction false} AtLeastOneEach(lengths: seq<nat>, k: nat)
    requires k <= |lengths| && forall i :: 0 <= i < |lengths| ==> 1 <= lengths[i]
    ensures VisitsIn(lengths, k) >= k
  {
    if k > 0 { AtLeastOneEach(lengths, k - 1); }
  }

  // Each walk makes at least one visit, so n walks reach every root, whatever
  // their budgets.
  lemma EveryRootIsReached(cursor: nat, n: nat, lengths: seq<nat>, root: nat) returns (j: nat)
    requires |lengths| == n && root < n && forall i :: 0 <= i < n ==> 1 <= lengths[i]
    ensures j < |Visited(cursor, n, lengths, n)| && Visited(cursor, n, lengths, n)[j] == root
  {
    j := Distance(cursor, n, root);
    VisitedCount(cursor, n, lengths, n);
    AtLeastOneEach(lengths, n);
    WalksGoRound(cursor, n, lengths, n, j);
    ModIsRemainder(cursor + j, n);
  }

  // The steps from the cursor to a position.
  lemma Distance(cursor: nat, n: nat, root: nat) returns (j: nat)
    requires n > 0 && root < n
    ensures j < n && Mod(cursor + j, n) == root
  {
    var c := Mod(cursor, n);
    j := if c <= root then root - c else root + n - c;
    ModOffset(cursor, j, n);
  }

  // Every position below n occurs in `at`, and none twice.
  ghost predicate OnceEach(at: seq<nat>, n: nat) {
    && (forall root: nat :: root < n ==> root in at)
    && (forall i, j :: 0 <= i < j < |at| ==> at[i] != at[j])
  }

  // A walk that is not cut visits every root exactly once.
  lemma WholeWalkVisitsOnce(cursor: nat, n: nat)
    requires n > 0
    ensures OnceEach(Positions(cursor, n, n), n)
  {
    var at := Positions(cursor, n, n);
    forall root: nat | root < n ensures root in at {
      var j := Distance(cursor, n, root);
      PositionAt(cursor, n, n, j);
    }
    forall i, j | 0 <= i < j < n ensures at[i] != at[j] {
      PositionAt(cursor, n, n, i);
      PositionAt(cursor, n, n, j);
      ModOffset(cursor, i, n);
      ModOffset(cursor, j, n);
    }
  }

  // The visits go on from the cursor and round the list.
  ghost predicate InTurn(cursor: nat, n: nat, at: seq<nat>) {
    |at| <= n && forall k :: 0 <= k < |at| ==> at[k] == (cursor + k) % n
  }

  lemma PositionsInTurn(cursor: nat, n: nat, m: nat)
    requires 0 < n && m <= n
    ensures InTurn(cursor, n, Positions(cursor, n, m))
  {
    forall k | 0 <= k < m ensures Positions(cursor, n, m)[k] == (cursor + k) % n {
      PositionAt(cursor, n, m, k);
      ModIsRemainder(cursor + k, n);
    }
  }

  // The budget was used up after m visits and not before. The clock is looked at
  // only after a visit.
  ghost predicate StoppedBy(elapsed: nat -> nat, budget: nat, m: nat) {
    && 1 <= m && elapsed(m) >= budget
    && forall k :: 1 <= k < m ==> elapsed(k) < budget
  }

  // ---- The walk itself ----

  method Remainder(a: nat, n: nat) returns (r: nat)
    requires n > 0
    ensures r == Mod(a, n)
  {
    r := a % n;
    ModIsRemainder(a, n);
  }

  // The position visited at this offset and the one after it.
  method Advance(cursor: nat, begin: nat, offset: nat, n: nat) returns (index: nat, next: nat)
    requires n > 0 && begin == Mod(cursor, n)
    ensures index == Mod(cursor + offset, n) && next == Mod(cursor + offset + 1, n) && index < n
  {
    index := Remainder(begin + offset, n);
    next := Remainder(index + 1, n);
    ModAdd(cursor, offset, n);
    ModAdd(cursor + offset, 1, n);
  }

  // The visits are of the roots at these positions.
  ghost predicate AreVisits<Root>(roots: seq<Root>, at: seq<nat>, visits: seq<Root>) {
    |visits| == |at| && forall k :: 0 <= k < |at| ==> at[k] < |roots| && visits[k] == roots[at[k]]
  }

  method VisitOne<Root>(roots: seq<Root>, from: nat, begin: nat, offset: nat, visits0: seq<Root>, at0: seq<nat>)
    returns (visits: seq<Root>, at: seq<nat>, next: nat)
    requires offset < |roots| && begin == Mod(from, |roots|)
    requires AreVisits(roots, at0, visits0) && at0 == Positions(from, |roots|, offset)
    ensures AreVisits(roots, at, visits) && at == Positions(from, |roots|, offset + 1)
    ensures next == Mod(from + offset + 1, |roots|)
  {
    var index;
    index, next := Advance(from, begin, offset, |roots|);
    visits, at := visits0 + [roots[index]], at0 + [index];
  }

  class Walk<Root> {
    var cursor: nat

    constructor ()
      ensures cursor == 0
    {
      cursor := 0;
    }

    method Reset()
      modifies this
      ensures cursor == 0
    {
      cursor := 0;
    }

    // `elapsed(k)` is the time that has passed after k visits. `visits` lists the
    // roots the body was run on, `at` their positions.
    method Over(roots: seq<Root>, elapsed: nat -> nat, budget: nat)
      returns (completed: bool, visits: seq<Root>, at: seq<nat>)
      modifies this
      ensures AreVisits(roots, at, visits) && InTurn(old(cursor), |roots|, at)
      ensures cursor == if roots == [] then old(cursor) else (old(cursor) + |at|) % |roots|
      ensures completed <==> forall k :: 1 <= k <= |roots| ==> elapsed(k) < budget
      ensures completed ==> OnceEach(at, |roots|)
      ensures roots != [] ==> 1 <= |at|
      ensures !completed ==> StoppedBy(elapsed, budget, |at|) && |at| <= |roots|
    {
      visits, at, completed := [], [], true;
      if |roots| == 0 {
        return;
      }
      var n, from := |roots|, cursor;
      var begin := Remainder(from, n);
      var next := begin;
      for offset := 0 to n
        invariant completed && forall k :: 1 <= k <= offset ==> elapsed(k) < budget
        invariant at == Positions(from, n, offset) && next == Mod(from + offset, n)
        invariant AreVisits(roots, at, visits)
      {
        visits, at, next := VisitOne(roots, from, begin, offset, visits, at);
        if elapsed(offset + 1) >= budget {
          completed := false;
          break;
        }
      }
      ModIsRemainder(from + |at|, n);
      PositionsInTurn(from, n, |at|);
      if completed { WholeWalkVisitsOnce(from, n); }
      cursor := next;
    }
  }
}
