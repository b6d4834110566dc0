// One serial lane of one project: a queue of waiting claims, at most one owner,
// and guards that name the lane by token. Claiming, entering, settling the
// claim and dropping the guard are separate lock sections of each caller.
module Lane {
  import opened Wrappers

  const TICKET_STALE_MS := 30000
  const TICKET_TTL_MS := 600000

  // `yieldClass` is 0 for network verbs and 1 for all others.
  datatype Waiter = Waiter(token: nat, identity: nat, yieldClass: nat, claimed: nat, lastSeen: nat, active: bool)

  // Where a caller is: waiting to enter, entered but not yet taken off the
  // queue, given up but not yet marked, holding a guard, or waiting without a
  // place in the queue.
  datatype Caller = InLine(token: nat) | Entered(token: nat) | GaveUp(token: nat) | Guard(token: nat)
    | Unqueued(token: nat)

  // `owned` are the tokens that ever owned the lane.
  datatype State = State(queue: seq<Waiter>, owner: Option<nat>, nextToken: nat, callers: map<nat, Caller>,
    owned: set<nat>)

  datatype Op =
    | Claim(pid: nat, identity: nat, yieldClass: nat, now: nat)
    | TryEnter(pid: nat, now: nat, yieldMs: nat)
    | TimeOut(pid: nat)
    | Settle(pid: nat)
    | DropGuard(pid: nat)
    | StartUnqueued(pid: nat)
    | EnterUnqueued(pid: nat)
    | RequeueFront(identity: nat, yieldClass: nat, now: nat)
    | ForceRelease(token: nat)
    | OtherLanes(drawn: nat)

  predicate Stale(w: Waiter, now: nat) {
    Minus(now, w.lastSeen) >= TICKET_STALE_MS
  }

  // The first place in the queue with this token, or |queue|.
  function Place(queue: seq<Waiter>, token: nat, from: nat := 0): (at: nat)
    requires from <= |queue|
    ensures from <= at <= |queue|
    ensures at < |queue| ==> queue[at].token == token
    ensures forall i :: from <= i < at ==> queue[i].token != token
    decreases |queue| - from
  {
    if from == |queue| || queue[from].token == token then from else Place(queue, token, from + 1)
  }

  // The first unclaimed place with this identity, or |queue|.
  function Claimable(queue: seq<Waiter>, identity: nat, from: nat := 0): (at: nat)
    requires from <= |queue|
    ensures from <= at <= |queue|
    ensures at < |queue| ==> queue[at].identity == identity && !queue[at].active
    decreases |queue| - from
  {
    if from == |queue| || (queue[from].identity == identity && !queue[from].active) then from
    else Claimable(queue, identity, from + 1)
  }

  // What a pass over the queue keeps: entries seen within the ticket's lifetime,
  // or entries of another token.
  datatype Filter = SeenBy(now: nat) | OtherThan(token: nat)

  predicate Passes(f: Filter, w: Waiter) {
    match f
    case SeenBy(now) => Minus(now, w.lastSeen) < TICKET_TTL_MS
    case OtherThan(token) => w.token != token
  }

  function KeepTo(queue: seq<Waiter>, f: Filter, n: nat): (r: seq<Waiter>)
    requires n <= |queue|
  {
    if n == 0 then [] else
      KeepTo(queue, f, n - 1) + (if Passes(f, queue[n - 1]) then [queue[n - 1]] else [])
  }

  function Keep(queue: seq<Waiter>, f: Filter): (r: seq<Waiter>) {
    KeepTo(queue, f, |queue|)
  }

  // A waiter ahead lets the one of class `mine` pass when it is stale, or when it
  // is of a lower class and claimed recently.
  predicate LetsPass(ahead: Waiter, mine: nat, now: nat, yieldMs: nat) {
    Stale(ahead, now) || (ahead.yieldClass < mine && Minus(now, ahead.claimed) < yieldMs)
  }

  predicate Admissible(queue: seq<Waiter>, token: nat, now: nat, yieldMs: nat) {
    var at := Place(queue, token);
    at < |queue| && forall i :: 0 <= i < at ==> LetsPass(queue[i], queue[at].yieldClass, now, yieldMs)
  }

  predicate HasIdentity(queue: seq<Waiter>, identity: nat) {
    exists i :: 0 <= i < |queue| && queue[i].identity == identity
  }

  // A claim takes over an unclaimed entry of the same identity, or joins at the end.
  function ClaimQueue(queue: seq<Waiter>, identity: nat, yieldClass: nat, now: nat, token: nat): (r: seq<Waiter>)
  {
    var q := Keep(queue, SeenBy(now));
    var at := Claimable(q, identity);
    if at < |q| then q[at := q[at].(lastSeen := now, active := true)]
    else q + [Waiter(token, identity, yieldClass, now, now, true)]
  }

  function ClaimToken(queue: seq<Waiter>, identity: nat, now: nat, token: nat): nat {
    var q := Keep(queue, SeenBy(now));
    var at := Claimable(q, identity);
    if at < |q| then q[at].token else token
  }

  function Deactivated(queue: seq<Waiter>, token: nat): (r: seq<Waiter>) {
    var at := Place(queue, token);
    if at < |queue| then queue[at := queue[at].(active := false)] else queue
  }

  predicate Enabled(s: State, op: Op) {
    match op
    case Claim(pid, _, _, _) => pid !in s.callers
    case StartUnqueued(pid) => pid !in s.callers
    case TryEnter(pid, _, _) => pid in s.callers && s.callers[pid].InLine?
    case TimeOut(pid) => pid in s.callers && s.callers[pid].InLine?
    case Settle(pid) => pid in s.callers && (s.callers[pid].Entered? || s.callers[pid].GaveUp?)
    case DropGuard(pid) => pid in s.callers && s.callers[pid].Guard?
    case EnterUnqueued(pid) => pid in s.callers && s.callers[pid].Unqueued?
    case _ => true
  }

  function Step(s: State, op: Op): State
    requires Enabled(s, op)
  {
    match op
    case Claim(pid, identity, yieldClass, now) =>
      var token := ClaimToken(s.queue, identity, now, s.nextToken);
      s.(queue := ClaimQueue(s.queue, identity, yieldClass, now, s.nextToken),
         nextToken := if token == s.nextToken then token + 1 else s.nextToken,
         callers := s.callers[pid := InLine(token)])
    case TryEnter(pid, now, yieldMs) =>
      var token := s.callers[pid].token;
      if s.owner.None? && Admissible(s.queue, token, now, yieldMs)
      then s.(owner := Some(token), callers := s.callers[pid := Entered(token)], owned := s.owned + {token})
      else s
    case TimeOut(pid) => s.(callers := s.callers[pid := GaveUp(s.callers[pid].token)])
    case Settle(pid) =>
      var token := s.callers[pid].token;
      if s.callers[pid].Entered?
      then s.(queue := Keep(s.queue, OtherThan(token)), callers := s.callers[pid := Guard(token)])
      else s.(queue := Deactivated(s.queue, token), callers := s.callers - {pid})
    case DropGuard(pid) =>
      s.(owner := if s.owner == Some(s.callers[pid].token) then None else s.owner, callers := s.callers - {pid})
    case StartUnqueued(pid) =>
      s.(nextToken := s.nextToken + 1, callers := s.callers[pid := Unqueued(s.nextToken)])
    case EnterUnqueued(pid) =>
      var token := s.callers[pid].token;
      if s.owner.None?
      then s.(owner := Some(token), callers := s.callers[pid := Guard(token)], owned := s.owned + {token})
      else s
    case RequeueFront(identity, yieldClass, now) =>
      if HasIdentity(s.queue, identity) then s else
        var w := Waiter(s.nextToken, identity, yieldClass, now, now, false);
        s.(queue := [w] + s.queue, nextToken := s.nextToken + 1)
    case ForceRelease(token) =>
      if s.owner == Some(token) then s.(owner := None) else s
    case OtherLanes(drawn) => s.(nextToken := s.nextToken + drawn)
  }

  // ---- The invariant ----

  ghost predicate DistinctTokens(queue: seq<Waiter>) {
    forall i, j :: 0 <= i < j < |queue| ==> queue[i].token != queue[j].token
  }

  ghost predicate OneCallerPerToken(callers: map<nat, Caller>) {
    forall p, q :: p in callers && q in callers && callers[p].token == callers[q].token ==> p == q
  }

  ghost predicate Backs(callers: map<nat, Caller>, token: nat) {
    exists p :: p in callers && callers[p].token == token
  }

  ghost predicate Good(s: State) {
    && DistinctTokens(s.queue)
    && OneCallerPerToken(s.callers)
    && (forall i :: 0 <= i < |s.queue| ==> s.queue[i].token < s.nextToken)
    && (forall p :: p in s.callers ==> s.callers[p].token < s.nextToken)
    && (forall t :: t in s.owned ==> t < s.nextToken)
    // an unclaimed entry belongs to nobody and never owned the lane
    && (forall i :: 0 <= i < |s.queue| && !s.queue[i].active ==>
      !Backs(s.callers, s.queue[i].token) && s.queue[i].token !in s.owned)
    // who has not entered never owned the lane, who has did
    && (forall p :: p in s.callers ==>
      (s.callers[p].token in s.owned <==> s.callers[p].Entered? || s.callers[p].Guard?))
    && (s.owner.Some? ==> s.owner.value in s.owned && Backs(s.callers, s.owner.value))
  }

  ghost predicate InQueue(queue: seq<Waiter>, token: nat) {
    exists i :: 0 <= i < |queue| && queue[i].token == token
  }

  // ---- Passing over the queue ----

  lemma ThinnedNext(q: seq<Waiter>, r: seq<Waiter>, at: seq<nat>, w: Waiter)
    requires Thinned(q, r, at)
    ensures Thinned(q + [w], r, at) && Thinned(q + [w], r + [w], at + [|q|])
  {
  }

  lemma {:induction false} KeepPlaces(queue: seq<Waiter>, f: Filter, n: nat) returns (at: seq<nat>)
    requires n <= |queue|
    ensures Thinned(queue[..n], KeepTo(queue, f, n), at)
    ensures forall i :: 0 <= i < n ==> (i in at <==> Passes(f, queue[i]))
  {
    at := [];
    if n > 0 {
      var w := queue[n - 1];
      at := KeepPlaces(queue, f, n - 1);
      ThinnedNext(queue[..n - 1], KeepTo(queue, f, n - 1), at, w);
      assert queue[..n] == queue[..n - 1] + [w];
      if Passes(f, w) { at := at + [n - 1]; }
    }
  }

  lemma KeepIsThinned(queue: seq<Waiter>, f: Filter, n: nat) returns (at: seq<nat>)
    requires n <= |queue|
    ensures Thinned(queue[..n], KeepTo(queue, f, n), at)
  {
    at := KeepPlaces(queue, f, n);
  }

  lemma {:induction false} KeepsWhatPasses(queue: seq<Waiter>, f: Filter, n: nat, i: nat)
    requires i < n <= |queue| && Passes(f, queue[i])
    ensures queue[i] in KeepTo(queue, f, n)
  {
    if i < n - 1 { KeepsWhatPasses(queue, f, n - 1, i); }
  }

  lemma {:induction false} KeepsOnlyPassing(queue: seq<Waiter>, f: Filter, n: nat)
    requires n <= |queue|
    ensures forall w :: w in KeepTo(queue, f, n) ==> Passes(f, w)
  {
    if n > 0 { KeepsOnlyPassing(queue, f, n - 1); }
  }

  lemma KeepEntries(queue: seq<Waiter>, f: Filter)
    requires DistinctTokens(queue)
    ensures DistinctTokens(Keep(queue, f))
    ensures forall k :: 0 <= k < |Keep(queue, f)| ==> Keep(queue, f)[k] in queue && Passes(f, Keep(queue, f)[k])
  {
    var r := Keep(queue, f);
    var at := KeepIsThinned(queue, f, |queue|);
    assert queue[..|queue|] == queue;
    KeepsOnlyPassing(queue, f, |queue|);
    forall k | 0 <= k < |r| ensures r[k] in queue && Passes(f, r[k]) {
      assert r[k] in r;
    }
  }

  // ---- The invariant survives every step ----

  lemma BacksOther(callers: map<nat, Caller>, p: nat, c: Caller, token: nat)
    requires !Backs(callers, token) && c.token != token
    ensures !Backs(callers[p := c], token)
  {
  }

  lemma ClaimedQueue(s: State, identity: nat, yieldClass: nat, now: nat)
    requires Good(s)
    ensures var q := ClaimQueue(s.queue, identity, yieldClass, now, s.nextToken);
      var t := ClaimToken(s.queue, identity, now, s.nextToken);
      && DistinctTokens(q)
      && !Backs(s.callers, t) && t !in s.owned && t <= s.nextToken
      && (forall i :: 0 <= i < |q| ==>
        (q[i].active && q[i].token == t) || (q[i] in s.queue && q[i].token != t))
  {
    KeepEntries(s.queue, SeenBy(now));
    var q := Keep(s.queue, SeenBy(now));
    var at := Claimable(q, identity);
    if at < |q| {
      assert q[at] in s.queue;
    }
  }

  lemma ClaimKeepsGood(s: State, pid: nat, identity: nat, yieldClass: nat, now: nat)
    requires Good(s) && pid !in s.callers
    ensures Good(Step(s, Claim(pid, identity, yieldClass, now)))
  {
    ClaimedQueue(s, identity, yieldClass, now);
    var s', t := Step(s, Claim(pid, identity, yieldClass, now)), ClaimToken(s.queue, identity, now, s.nextToken);
    var q := s'.queue;
    forall i | 0 <= i < |q| && !q[i].active ensures !Backs(s'.callers, q[i].token) && q[i].token !in s'.owned {
      BacksOther(s.callers, pid, InLine(t), q[i].token);
    }
    if s.owner.Some? {
      var p :| p in s.callers && s.callers[p].token == s.owner.value;
      assert s'.callers[p].token == s.owner.value;
    }
  }

  // A caller that moves on with the same token leaves every token backed as before.
  lemma SameTokenBacks(callers: map<nat, Caller>, pid: nat, c: Caller, token: nat)
    requires pid in callers && c.token == callers[pid].token
    ensures Backs(callers[pid := c], token) <==> Backs(callers, token)
  {
    if Backs(callers, token) {
      var p :| p in callers && callers[p].token == token;
      assert callers[pid := c][p].token == token;
    }
  }

  lemma EnterKeepsGood(s: State, pid: nat, c: Caller)
    requires Good(s) && pid in s.callers && (s.callers[pid].InLine? || s.callers[pid].Unqueued?)
    requires (c.Entered? || c.Guard?) && c.token == s.callers[pid].token && s.owner.None?
    ensures Good(s.(owner := Some(c.token), callers := s.callers[pid := c], owned := s.owned + {c.token}))
  {
    var callers := s.callers[pid := c];
    assert callers[pid].token == c.token;
    forall t: nat ensures Backs(callers, t) <==> Backs(s.callers, t) { SameTokenBacks(s.callers, pid, c, t); }
    assert Backs(s.callers, c.token);
  }

  lemma MoveKeepsGood(s: State, pid: nat, c: Caller)
    requires Good(s) && pid in s.callers && c.token == s.callers[pid].token
    requires (c.Entered? || c.Guard?) <==> (s.callers[pid].Entered? || s.callers[pid].Guard?)
    ensures Good(s.(callers := s.callers[pid := c]))
  {
    forall t: nat
      ensures Backs(s.callers[pid := c], t) <==> Backs(s.callers, t)
    {
      SameTokenBacks(s.callers, pid, c, t);
    }
  }

  lemma LeaveKeepsGood(s: State, pid: nat)
    requires Good(s) && pid in s.callers
    requires s.owner.Some? ==> s.owner.value != s.callers[pid].token
    ensures Good(s.(callers := s.callers - {pid})) && !Backs(s.callers - {pid}, s.callers[pid].token)
  {
    var callers := s.callers - {pid};
    forall t: nat | t != s.callers[pid].token && Backs(s.callers, t) ensures Backs(callers, t) {
      var p :| p in s.callers && s.callers[p].token == t;
      assert p in callers && callers[p].token == t;
    }
  }

  lemma KeepKeepsGood(s: State, f: Filter)
    requires Good(s)
    ensures Good(s.(queue := Keep(s.queue, f)))
  {
    KeepEntries(s.queue, f);
    var q := Keep(s.queue, f);
    forall i | 0 <= i < |q| ensures q[i].token < s.nextToken {
      assert q[i] in s.queue;
    }
  }

  lemma DeactivateKeepsGood(s: State, token: nat)
    requires Good(s) && !Backs(s.callers, token) && token !in s.owned
    ensures Good(s.(queue := Deactivated(s.queue, token)))
  {
  }

  lemma SettleKeepsGood(s: State, pid: nat)
    requires Good(s) && Enabled(s, Settle(pid))
    ensures Good(Step(s, Settle(pid)))
  {
    var token := s.callers[pid].token;
    if s.callers[pid].Entered? {
      MoveKeepsGood(s, pid, Guard(token));
      KeepKeepsGood(s.(callers := s.callers[pid := Guard(token)]), OtherThan(token));
    } else {
      LeaveKeepsGood(s, pid);
      DeactivateKeepsGood(s.(callers := s.callers - {pid}), token);
    }
  }

  lemma DropKeepsGood(s: State, pid: nat)
    requires Good(s) && Enabled(s, DropGuard(pid))
    ensures Good(Step(s, DropGuard(pid)))
  {
    var token := s.callers[pid].token;
    if s.owner == Some(token) {
      LeaveKeepsGood(s.(owner := None), pid);
    } else {
      LeaveKeepsGood(s, pid);
    }
  }

  lemma FreshTokenKeepsGood(s: State, pid: nat)
    requires Good(s) && pid !in s.callers
    ensures Good(s.(nextToken := s.nextToken + 1, callers := s.callers[pid := Unqueued(s.nextToken)]))
  {
    var callers := s.callers[pid := Unqueued(s.nextToken)];
    forall t: nat | t < s.nextToken ensures Backs(callers, t) <==> Backs(s.callers, t) {
      if Backs(s.callers, t) {
        var p :| p in s.callers && s.callers[p].token == t;
        assert callers[p].token == t;
      }
    }
  }

  lemma RequeueKeepsGood(s: State, identity: nat, yieldClass: nat, now: nat)
    requires Good(s)
    ensures Good(Step(s, RequeueFront(identity, yieldClass, now)))
  {
  }

  lemma StepKeepsGood(s: State, op: Op)
    requires Good(s) && Enabled(s, op)
    ensures Good(Step(s, op))
  {
    match op
    case Claim(pid, identity, yieldClass, now) => ClaimKeepsGood(s, pid, identity, yieldClass, now);
    case TryEnter(pid, now, yieldMs) =>
      if s.owner.None? { EnterKeepsGood(s, pid, Entered(s.callers[pid].token)); }
    case TimeOut(pid) => MoveKeepsGood(s, pid, GaveUp(s.callers[pid].token));
    case Settle(pid) => SettleKeepsGood(s, pid);
    case DropGuard(pid) => DropKeepsGood(s, pid);
    case StartUnqueued(pid) => FreshTokenKeepsGood(s, pid);
    case EnterUnqueued(pid) =>
      if s.owner.None? { EnterKeepsGood(s, pid, Guard(s.callers[pid].token)); }
    case RequeueFront(identity, yieldClass, now) => RequeueKeepsGood(s, identity, yieldClass, now);
    case ForceRelease(token) =>
    case OtherLanes(drawn) =>
  }

  function Start(): State {
    State([], None, 0, map[], {})
  }

  function Do(s: State, op: Op): State {
    if Enabled(s, op) then Step(s, op) else s
  }

  function RunTo(ops: seq<Op>, n: nat): State
    requires n <= |ops|
  {
    if n == 0 then Start() else Do(RunTo(ops, n - 1), ops[n - 1])
  }

  // Main result: in every run no token backs two callers, so none backs two
  // live guards, and the owner is always backed by the caller that entered.
  lemma {:induction false} ReachableIsGood(ops: seq<Op>, n: nat)
    requires n <= |ops|
    ensures Good(RunTo(ops, n))
  {
    if n > 0 {
      ReachableIsGood(ops, n - 1);
      var s := RunTo(ops, n - 1);
      if Enabled(s, ops[n - 1]) { StepKeepsGood(s, ops[n - 1]); }
    }
  }

  // ---- A lost lane stays lost ----

  lemma {:induction false} LostStaysLost(ops: seq<Op>, m: nat, n: nat, token: nat)
    requires m <= n <= |ops|
    requires token in RunTo(ops, m).owned && RunTo(ops, m).owner != Some(token)
    ensures token in RunTo(ops, n).owned && RunTo(ops, n).owner != Some(token)
    decreases n
  {
    if m < n {
      LostStaysLost(ops, m, n - 1, token);
      ReachableIsGood(ops, n - 1);
    }
  }

  // Dropping one guard never frees the lane of another caller.
  lemma DropSparesOthers(s: State, pid: nat, other: nat)
    requires Good(s) && Enabled(s, DropGuard(pid))
    requires other in s.callers && other != pid && s.owner == Some(s.callers[other].token)
    ensures Step(s, DropGuard(pid)).owner == s.owner
  {
  }

  // Main result: once a guard's token has lost the lane, by a forced release or
  // otherwise, neither dropping that guard nor a late forced release of its
  // token ever frees a successor.
  lemma LostTokenFreesNobody(ops: seq<Op>, m: nat, n: nat, token: nat)
    requires m <= n < |ops|
    requires token in RunTo(ops, m).owned && RunTo(ops, m).owner != Some(token)
    requires ops[n] == ForceRelease(token)
      || (ops[n].DropGuard? && Enabled(RunTo(ops, n), ops[n]) && RunTo(ops, n).callers[ops[n].pid].token == token)
    ensures RunTo(ops, n + 1).owner == RunTo(ops, n).owner
  {
    LostStaysLost(ops, m, n, token);
  }

  // ---- The order of the queue ----

  // `a` stands before `b`.
  ghost predicate Before(queue: seq<Waiter>, a: nat, b: nat) {
    exists i, j :: 0 <= i < j < |queue| && queue[i].token == a && queue[j].token == b
  }

  lemma KeepOrder(queue: seq<Waiter>, f: Filter, a: nat, b: nat)
    requires DistinctTokens(queue) && Before(queue, a, b)
    requires InQueue(Keep(queue, f), a) && InQueue(Keep(queue, f), b)
    ensures Before(Keep(queue, f), a, b)
  {
    var r := Keep(queue, f);
    var at := KeepIsThinned(queue, f, |queue|);
    assert queue[..|queue|] == queue;
    var i, j :| 0 <= i < j < |queue| && queue[i].token == a && queue[j].token == b;
    var k :| 0 <= k < |r| && r[k].token == a;
    var l :| 0 <= l < |r| && r[l].token == b;
    assert at[k] == i && at[l] == j;
  }

  lemma KeepLeavesOut(queue: seq<Waiter>, f: Filter, token: nat)
    requires InQueue(Keep(queue, f), token)
    ensures InQueue(queue, token)
  {
    var r := Keep(queue, f);
    var at := KeepIsThinned(queue, f, |queue|);
    assert queue[..|queue|] == queue;
    var k :| 0 <= k < |r| && r[k].token == token;
    assert queue[at[k]].token == token;
  }

  ghost predicate SameTokens(q: seq<Waiter>, r: seq<Waiter>) {
    |q| == |r| && forall i :: 0 <= i < |q| ==> q[i].token == r[i].token && q[i].yieldClass == r[i].yieldClass
  }

  // The same tokens and classes, or one entry with a new token at either end.
  ghost predicate GrownFrom(kept: seq<Waiter>, q: seq<Waiter>, added: nat) {
    || SameTokens(kept, q)
    || (|q| > 0 && q[..|q| - 1] == kept && q[|q| - 1].token == added)
    || (|q| > 0 && q[1..] == kept && q[0].token == added)
  }

  // A step leaves the tokens alone, drops entries, or adds one fresh entry at
  // either end; a claim drops first and then adds or refreshes.
  lemma StepQueue(s: State, op: Op) returns (kept: seq<Waiter>)
    requires Enabled(s, op)
    ensures op.Claim? || op.Settle? || kept == s.queue
    ensures op.Claim? ==> kept == Keep(s.queue, SeenBy(op.now))
    ensures op.Settle? ==> kept == if s.callers[op.pid].Entered?
      then Keep(s.queue, OtherThan(s.callers[op.pid].token)) else s.queue
    ensures GrownFrom(kept, Step(s, op).queue, s.nextToken)
  {
    match op
    case Claim(_, _, _, now) => kept := Keep(s.queue, SeenBy(now));
    case Settle(pid) =>
      kept := if s.callers[pid].Entered? then Keep(s.queue, OtherThan(s.callers[pid].token)) else s.queue;
    case RequeueFront(_, _, _) =>
      kept := s.queue;
      assert Step(s, op).queue == s.queue || Step(s, op).queue[1..] == s.queue;
    case _ => kept := s.queue;
  }

  lemma Grown(kept: seq<Waiter>, q: seq<Waiter>, added: nat, t: nat)
    requires GrownFrom(kept, q, added)
    requires t != added
    ensures InQueue(q, t) <==> InQueue(kept, t)
  {
    if InQueue(q, t) {
      var i :| 0 <= i < |q| && q[i].token == t;
      if SameTokens(kept, q) {
        assert kept[i].token == t;
      } else if q[..|q| - 1] == kept && q[|q| - 1].token == added {
        assert kept[i].token == t;
      } else {
        assert kept[i - 1].token == t;
      }
    }
    if InQueue(kept, t) {
      var i :| 0 <= i < |kept| && kept[i].token == t;
      if SameTokens(kept, q) || q[..|q| - 1] == kept {
        assert q[i].token == t;
      } else {
        assert q[i + 1].token == t;
      }
    }
  }

  lemma GrownOrder(kept: seq<Waiter>, q: seq<Waiter>, added: nat, a: nat, b: nat)
    requires GrownFrom(kept, q, added)
    requires Before(kept, a, b)
    ensures Before(q, a, b)
  {
    var i, j :| 0 <= i < j < |kept| && kept[i].token == a && kept[j].token == b;
    if SameTokens(kept, q) || q[..|q| - 1] == kept {
      assert q[i].token == a && q[j].token == b;
    } else {
      assert q[i + 1].token == a && q[j + 1].token == b;
    }
  }

  lemma StepKeepsOrder(s: State, op: Op, a: nat, b: nat)
    requires Good(s) && Enabled(s, op) && Before(s.queue, a, b)
    requires InQueue(Step(s, op).queue, a) && InQueue(Step(s, op).queue, b)
    ensures Before(Step(s, op).queue, a, b)
  {
    var kept := StepQueue(s, op);
    Grown(kept, Step(s, op).queue, s.nextToken, a);
    Grown(kept, Step(s, op).queue, s.nextToken, b);
    if op.Claim? {
      KeepOrder(s.queue, SeenBy(op.now), a, b);
    } else if op.Settle? && s.callers[op.pid].Entered? {
      KeepOrder(s.queue, OtherThan(s.callers[op.pid].token), a, b);
    }
    GrownOrder(kept, Step(s, op).queue, s.nextToken, a, b);
  }

  // A token that left the queue never comes back.
  lemma NeverReturns(s: State, op: Op, t: nat)
    requires Enabled(s, op) && t < s.nextToken && InQueue(Step(s, op).queue, t)
    ensures InQueue(s.queue, t)
  {
    var kept := StepQueue(s, op);
    Grown(kept, Step(s, op).queue, s.nextToken, t);
    if op.Claim? {
      KeepLeavesOut(s.queue, SeenBy(op.now), t);
    } else if op.Settle? && s.callers[op.pid].Entered? {
      KeepLeavesOut(s.queue, OtherThan(s.callers[op.pid].token), t);
    }
  }

  lemma {:induction false} TokensGrow(ops: seq<Op>, m: nat, n: nat)
    requires m <= n <= |ops|
    ensures RunTo(ops, m).nextToken <= RunTo(ops, n).nextToken
    decreases n
  {
    if m < n {
      TokensGrow(ops, m, n - 1);
      ReachableIsGood(ops, n - 1);
    }
  }

  // In the queue at two moments means in the queue one step before the later.
  lemma StillThere(ops: seq<Op>, m: nat, n: nat, t: nat)
    requires m < n <= |ops|
    requires InQueue(RunTo(ops, m).queue, t) && InQueue(RunTo(ops, n).queue, t)
    ensures InQueue(RunTo(ops, n - 1).queue, t)
  {
    ReachableIsGood(ops, m);
    TokensGrow(ops, m, n - 1);
    var s := RunTo(ops, n - 1);
    if Enabled(s, ops[n - 1]) { NeverReturns(s, ops[n - 1], t); }
  }

  lemma BeforeIsIn(queue: seq<Waiter>, a: nat, b: nat)
    requires Before(queue, a, b)
    ensures InQueue(queue, a) && InQueue(queue, b)
  {
  }

  // Main result: entries that survive keep their relative order in every run.
  lemma {:induction false} OrderKept(ops: seq<Op>, m: nat, n: nat, a: nat, b: nat)
    requires m <= n <= |ops|
    requires Before(RunTo(ops, m).queue, a, b)
    requires InQueue(RunTo(ops, n).queue, a) && InQueue(RunTo(ops, n).queue, b)
    ensures Before(RunTo(ops, n).queue, a, b)
    decreases n
  {
    if m < n {
      BeforeIsIn(RunTo(ops, m).queue, a, b);
      StillThere(ops, m, n, a);
      StillThere(ops, m, n, b);
      OrderKept(ops, m, n - 1, a, b);
      ReachableIsGood(ops, n - 1);
      var s := RunTo(ops, n - 1);
      if Enabled(s, ops[n - 1]) { StepKeepsOrder(s, ops[n - 1], a, b); }
    }
  }

  // ---- Granting in order ----

  ghost predicate HasClass(queue: seq<Waiter>, token: nat, yieldClass: nat) {
    exists i :: 0 <= i < |queue| && queue[i].token == token && queue[i].yieldClass == yieldClass
  }

  lemma KeepClass(queue: seq<Waiter>, f: Filter, t: nat, c: nat)
    requires DistinctTokens(queue) && HasClass(queue, t, c) && InQueue(Keep(queue, f), t)
    ensures HasClass(Keep(queue, f), t, c)
  {
    var r := Keep(queue, f);
    var at := KeepIsThinned(queue, f, |queue|);
    assert queue[..|queue|] == queue;
    var i :| 0 <= i < |queue| && queue[i].token == t && queue[i].yieldClass == c;
    var k :| 0 <= k < |r| && r[k].token == t;
    assert at[k] == i && r[k].yieldClass == c;
  }

  lemma GrownClass(kept: seq<Waiter>, q: seq<Waiter>, added: nat, t: nat, c: nat)
    requires GrownFrom(kept, q, added) && HasClass(kept, t, c)
    ensures HasClass(q, t, c)
  {
    var i :| 0 <= i < |kept| && kept[i].token == t && kept[i].yieldClass == c;
    if SameTokens(kept, q) || q[..|q| - 1] == kept {
      assert q[i].token == t && q[i].yieldClass == c;
    } else {
      assert q[i + 1].token == t && q[i + 1].yieldClass == c;
    }
  }

  lemma StepKeepsClass(s: State, op: Op, t: nat, c: nat)
    requires Good(s) && Enabled(s, op) && HasClass(s.queue, t, c) && InQueue(Step(s, op).queue, t)
    ensures HasClass(Step(s, op).queue, t, c)
  {
    var kept := StepQueue(s, op);
    Grown(kept, Step(s, op).queue, s.nextToken, t);
    if op.Claim? {
      KeepClass(s.queue, SeenBy(op.now), t, c);
    } else if op.Settle? && s.callers[op.pid].Entered? {
      KeepClass(s.queue, OtherThan(s.callers[op.pid].token), t, c);
    }
    GrownClass(kept, Step(s, op).queue, s.nextToken, t, c);
  }

  lemma {:induction false} ClassKept(ops: seq<Op>, m: nat, n: nat, t: nat, c: nat)
    requires m <= n <= |ops|
    requires HasClass(RunTo(ops, m).queue, t, c) && InQueue(RunTo(ops, n).queue, t)
    ensures HasClass(RunTo(ops, n).queue, t, c)
    decreases n
  {
    if m < n {
      StillThere(ops, m, n, t);
      ClassKept(ops, m, n - 1, t, c);
      ReachableIsGood(ops, n - 1);
      var s := RunTo(ops, n - 1);
      if Enabled(s, ops[n - 1]) { StepKeepsClass(s, ops[n - 1], t, c); }
    }
  }

  // Of two waiters of one class the later is not admitted past a fresh earlier one.
  lemma NoOvertaking(queue: seq<Waiter>, a: nat, b: nat, c: nat, now: nat, yieldMs: nat)
    requires DistinctTokens(queue) && Before(queue, a, b)
    requires HasClass(queue, a, c) && HasClass(queue, b, c)
    requires Admissible(queue, b, now, yieldMs)
    ensures forall i :: 0 <= i < |queue| && queue[i].token == a ==> Stale(queue[i], now)
  {
    var i, j :| 0 <= i < j < |queue| && queue[i].token == a && queue[j].token == b;
    assert Place(queue, b) == j;
    assert LetsPass(queue[i], queue[j].yieldClass, now, yieldMs);
  }

  // Main result: if a stands before b with the same class at some moment of a
  // run and b is let in later, then by then a has left the queue or has not
  // been seen for the stale time: fresh waiters of a class enter in order.
  lemma GrantedInOrder(ops: seq<Op>, m: nat, n: nat, a: nat, b: nat, c: nat, pid: nat, now: nat, yieldMs: nat)
    requires m <= n < |ops|
    requires Before(RunTo(ops, m).queue, a, b)
    requires HasClass(RunTo(ops, m).queue, a, c) && HasClass(RunTo(ops, m).queue, b, c)
    requires ops[n] == TryEnter(pid, now, yieldMs) && Enabled(RunTo(ops, n), ops[n])
    requires RunTo(ops, n).callers[pid] == InLine(b) && RunTo(ops, n + 1).callers[pid] == Entered(b)
    ensures var queue := RunTo(ops, n).queue;
      forall i :: 0 <= i < |queue| && queue[i].token == a ==> Stale(queue[i], now)
  {
    var s := RunTo(ops, n);
    assert Admissible(s.queue, b, now, yieldMs);
    if InQueue(s.queue, a) {
      assert InQueue(s.queue, b);
      ReachableIsGood(ops, n);
      OrderKept(ops, m, n, a, b);
      ClassKept(ops, m, n, a, c);
      ClassKept(ops, m, n, b, c);
      NoOvertaking(s.queue, a, b, c, now, yieldMs);
    }
  }

  // Every waiter ahead that was seen within 30 s is of a lower class and was claimed
  // less than `yieldMs` ago.
  ghost predicate OnlyYieldingAhead(queue: seq<Waiter>, at: nat, now: nat, yieldMs: nat)
    requires at < |queue|
  {
    forall i :: 0 <= i < at && now < queue[i].lastSeen + 30000 ==>
      queue[i].yieldClass < queue[at].yieldClass && 0 < yieldMs && now < queue[i].claimed + yieldMs
  }

  // Main result: a waiter is admissible if and only if it stands in the queue with
  // nobody ahead that neither yields to it nor is stale.
  lemma AdmissibleExactly(queue: seq<Waiter>, token: nat, now: nat, yieldMs: nat)
    requires DistinctTokens(queue)
    ensures Admissible(queue, token, now, yieldMs) <==>
      exists at: nat :: at < |queue| && queue[at].token == token && OnlyYieldingAhead(queue, at, now, yieldMs)
  {
    var at := Place(queue, token);
    if at < |queue| {
      assert OnlyYieldingAhead(queue, at, now, yieldMs) <==> Admissible(queue, token, now, yieldMs) by {
        assert forall i :: 0 <= i < at ==>
          (LetsPass(queue[i], queue[at].yieldClass, now, yieldMs) <==>
          (now < queue[i].lastSeen + 30000 ==>
            queue[i].yieldClass < queue[at].yieldClass && 0 < yieldMs && now < queue[i].claimed + yieldMs));
      }
    }
  }

  // The waiter a, if it was seen within 30 s, is of a lower class than b and was
  // claimed less than `yieldMs` ago.
  ghost predicate StaleOrYields(queue: seq<Waiter>, a: nat, b: nat, now: nat, yieldMs: nat) {
    forall i, j :: 0 <= i < |queue| && 0 <= j < |queue| && queue[i].token == a && queue[j].token == b ==>
      queue[i].lastSeen + 30000 <= now
      || (queue[i].yieldClass < queue[j].yieldClass && 0 < yieldMs && now < queue[i].claimed + yieldMs)
  }

  lemma PassedYields(queue: seq<Waiter>, a: nat, b: nat, now: nat, yieldMs: nat)
    requires DistinctTokens(queue) && Before(queue, a, b) && Admissible(queue, b, now, yieldMs)
    ensures StaleOrYields(queue, a, b, now, yieldMs)
  {
    AdmissibleExactly(queue, b, now, yieldMs);
    var at: nat :| at < |queue| && queue[at].token == b && OnlyYieldingAhead(queue, at, now, yieldMs);
  }

  // Main result: in every run, whoever is let in while a waiter seen within 30 s
  // still stands before it is of a higher class, and that waiter was claimed less
  // than `yieldMs` ago.
  lemma PassesOnlyLowerClasses(ops: seq<Op>, m: nat, n: nat, a: nat, b: nat, pid: nat, now: nat, yieldMs: nat)
    requires m <= n < |ops| && Before(RunTo(ops, m).queue, a, b)
    requires ops[n] == TryEnter(pid, now, yieldMs) && Enabled(RunTo(ops, n), ops[n])
    requires RunTo(ops, n).callers[pid] == InLine(b) && RunTo(ops, n + 1).callers[pid] == Entered(b)
    ensures StaleOrYields(RunTo(ops, n).queue, a, b, now, yieldMs)
  {
    var queue := RunTo(ops, n).queue;
    assert Admissible(queue, b, now, yieldMs);
    if InQueue(queue, a) {
      assert InQueue(queue, b);
      ReachableIsGood(ops, n);
      OrderKept(ops, m, n, a, b);
      PassedYields(queue, a, b, now, yieldMs);
    }
  }

  lemma PassingStaysIn(queue: seq<Waiter>, f: Filter, i: nat)
    requires i < |queue| && Passes(f, queue[i])
    ensures InQueue(Keep(queue, f), queue[i].token)
  {
    KeepsWhatPasses(queue, f, |queue|, i);
    var r := Keep(queue, f);
    var k :| 0 <= k < |r| && r[k] == queue[i];
  }

  // An entry leaves the queue only when its caller has entered, or when a claim
  // finds it unseen for the ticket's lifetime.
  lemma LeavesOnlyBy(s: State, op: Op, i: nat)
    requires Good(s) && Enabled(s, op) && i < |s.queue|
    requires !InQueue(Step(s, op).queue, s.queue[i].token)
    ensures (op.Settle? && s.callers[op.pid] == Entered(s.queue[i].token))
      || (op.Claim? && Minus(op.now, s.queue[i].lastSeen) >= TICKET_TTL_MS)
  {
    var t := s.queue[i].token;
    var kept := StepQueue(s, op);
    Grown(kept, Step(s, op).queue, s.nextToken, t);
    assert InQueue(s.queue, t);
    if op.Claim? {
      if Passes(SeenBy(op.now), s.queue[i]) { PassingStaysIn(s.queue, SeenBy(op.now), i); }
    } else if op.Settle? && s.callers[op.pid].Entered? {
      var f := OtherThan(s.callers[op.pid].token);
      if Passes(f, s.queue[i]) { PassingStaysIn(s.queue, f, i); }
    }
  }

  // The head of the queue may always enter a free lane, so the queue never
  // blocks itself.
  lemma HeadMayEnter(queue: seq<Waiter>, now: nat, yieldMs: nat)
    requires queue != []
    ensures Admissible(queue, queue[0].token, now, yieldMs)
  {
    assert Place(queue, queue[0].token) == 0;
  }

  // ---- Claiming, settling and re-queueing in the fields ----

  // `kept` is the queue with exactly the entries not seen for 10 minutes left out,
  // in the queue's order.
  ghost predicate SeenInTime(queue: seq<Waiter>, kept: seq<Waiter>, now: nat) {
    exists at: seq<nat> ::
      Thinned(queue, kept, at) && forall i :: 0 <= i < |queue| ==> (i in at <==> now < queue[i].lastSeen + 600000)
  }

  // `kept` is the queue without the entries of this token, in the queue's order.
  ghost predicate TakenOff(queue: seq<Waiter>, kept: seq<Waiter>, token: nat) {
    exists at: seq<nat> ::
      Thinned(queue, kept, at) && forall i :: 0 <= i < |queue| ==> (i in at <==> queue[i].token != token)
  }

  lemma KeepsExactly(queue: seq<Waiter>, f: Filter)
    ensures f.SeenBy? ==> SeenInTime(queue, Keep(queue, f), f.now)
    ensures f.OtherThan? ==> TakenOff(queue, Keep(queue, f), f.token)
  {
    var at := KeepPlaces(queue, f, |queue|);
    assert queue[..|queue|] == queue;
  }

  // The first entry of the identity that nobody claims.
  ghost predicate FirstUnclaimed(queue: seq<Waiter>, identity: nat, at: nat) {
    && at < |queue| && queue[at].identity == identity && !queue[at].active
    && forall i :: 0 <= i < at ==> queue[i].identity != identity || queue[i].active
  }

  // A claim forgets who was not seen in time, and then takes over the first
  // unclaimed entry of its identity at its place, or joins at the end if there is
  // none.
  ghost predicate ClaimsPlace(queue: seq<Waiter>, after: seq<Waiter>, identity: nat, yieldClass: nat, now: nat,
                              newToken: nat, token: nat)
  {
    exists kept :: SeenInTime(queue, kept, now) &&
      (TakesOver(kept, after, identity, now, token)
       || JoinsEnd(kept, after, identity, yieldClass, now, newToken, token))
  }

  ghost predicate TakesOver(kept: seq<Waiter>, after: seq<Waiter>, identity: nat, now: nat, token: nat) {
    exists at: nat :: FirstUnclaimed(kept, identity, at) && token == kept[at].token
      && after == kept[at := kept[at].(lastSeen := now, active := true)]
  }

  ghost predicate JoinsEnd(kept: seq<Waiter>, after: seq<Waiter>, identity: nat, yieldClass: nat, now: nat,
                           newToken: nat, token: nat)
  {
    && token == newToken && (forall i :: 0 <= i < |kept| ==> kept[i].identity != identity || kept[i].active)
    && after == kept + [Waiter(token, identity, yieldClass, now, now, true)]
  }

  lemma {:induction false} ClaimableIsFirst(queue: seq<Waiter>, identity: nat, from: nat)
    requires from <= |queue|
    ensures forall i :: from <= i < Claimable(queue, identity, from) ==>
      queue[i].identity != identity || queue[i].active
    decreases |queue| - from
  {
    if from < |queue| && !(queue[from].identity == identity && !queue[from].active) {
      ClaimableIsFirst(queue, identity, from + 1);
    }
  }

  lemma ClaimsExactly(queue: seq<Waiter>, identity: nat, yieldClass: nat, now: nat, newToken: nat)
    ensures ClaimsPlace(queue, ClaimQueue(queue, identity, yieldClass, now, newToken), identity, yieldClass, now,
                        newToken, ClaimToken(queue, identity, now, newToken))
  {
    var kept := Keep(queue, SeenBy(now));
    var after := ClaimQueue(queue, identity, yieldClass, now, newToken);
    var token := ClaimToken(queue, identity, now, newToken);
    var at := Claimable(kept, identity);
    KeepsExactly(queue, SeenBy(now));
    ClaimableIsFirst(kept, identity, 0);
    if at < |kept| {
      assert FirstUnclaimed(kept, identity, at) && TakesOver(kept, after, identity, now, token);
    } else {
      assert JoinsEnd(kept, after, identity, yieldClass, now, newToken, token);
    }
  }

  // The entry of the token, and nothing else, is no longer claimed.
  ghost predicate LeftUnclaimed(queue: seq<Waiter>, after: seq<Waiter>, token: nat) {
    && |after| == |queue|
    && forall i :: 0 <= i < |queue| ==>
      after[i] == if queue[i].token == token then queue[i].(active := false) else queue[i]
  }

  // ---- The lane, changed in place ----

  class LaneTable {
    var waiters: seq<Waiter>
    var owner: Option<nat>
    var nextToken: nat
    ghost var callers: map<nat, Caller>
    ghost var owned: set<nat>

    ghost function Snapshot(): State
      reads this
    {
      State(waiters, owner, nextToken, callers, owned)
    }

    ghost predicate Valid()
      reads this
    {
      Good(Snapshot())
    }

    constructor ()
      ensures Valid() && Snapshot() == Start()
    {
      waiters, owner, nextToken := [], None, 0;
      callers, owned := map[], {};
    }

    static method Retain(queue: seq<Waiter>, f: Filter) returns (r: seq<Waiter>)
      ensures r == Keep(queue, f)
    {
      r := [];
      for i := 0 to |queue|
        invariant r == KeepTo(queue, f, i)
      {
        if Passes(f, queue[i]) { r := r + [queue[i]]; }
      }
    }

    method ClaimPlace(pid: nat, identity: nat, yieldClass: nat, now: nat) returns (token: nat)
      requires Valid() && pid !in callers
      modifies this
      ensures Valid() && Snapshot() == Step(old(Snapshot()), Claim(pid, identity, yieldClass, now))
      ensures callers[pid] == InLine(token)
      ensures ClaimsPlace(old(waiters), waiters, identity, yieldClass, now, old(nextToken), token)
    {
      ghost var s := Snapshot();
      ClaimsExactly(waiters, identity, yieldClass, now, nextToken);
      var queue := Retain(waiters, SeenBy(now));
      var at := Claimable(queue, identity);
      if at < |queue| {
        KeepEntries(waiters, SeenBy(now));
        assert queue[at] in s.queue;
        token := queue[at].token;
        waiters := queue[at := queue[at].(lastSeen := now, active := true)];
      } else {
        token := nextToken;
        nextToken := nextToken + 1;
        waiters := queue + [Waiter(token, identity, yieldClass, now, now, true)];
      }
      callers := callers[pid := InLine(token)];
      assert Snapshot() == Step(s, Claim(pid, identity, yieldClass, now));
      ClaimKeepsGood(s, pid, identity, yieldClass, now);
    }

    method IsAdmissible(token: nat, now: nat, yieldMs: nat) returns (yes: bool)
      requires DistinctTokens(waiters)
      ensures yes <==> Admissible(waiters, token, now, yieldMs)
      ensures yes <==>
        exists at: nat :: at < |waiters| && waiters[at].token == token && OnlyYieldingAhead(waiters, at, now, yieldMs)
    {
      AdmissibleExactly(waiters, token, now, yieldMs);
      var at := Place(waiters, token);
      yes := at < |waiters|;
      if yes {
        for i := 0 to at
          invariant yes <==> forall j :: 0 <= j < i ==> LetsPass(waiters[j], waiters[at].yieldClass, now, yieldMs)
        {
          if !LetsPass(waiters[i], waiters[at].yieldClass, now, yieldMs) { yes := false; }
        }
      }
    }

    method Enter(pid: nat, token: nat, now: nat, yieldMs: nat) returns (entered: bool)
      requires Valid() && pid in callers && callers[pid] == InLine(token)
      modifies this
      ensures Valid() && Snapshot() == Step(old(Snapshot()), TryEnter(pid, now, yieldMs))
      ensures entered <==> callers[pid] == Entered(token)
      ensures entered <==> old(owner).None? && exists at: nat ::
        at < |waiters| && waiters[at].token == token && OnlyYieldingAhead(waiters, at, now, yieldMs)
      ensures waiters == old(waiters) && owner == if entered then Some(token) else old(owner)
    {
      ghost var s := Snapshot();
      var admissible := IsAdmissible(token, now, yieldMs);
      entered := owner.None? && admissible;
      if entered {
        owner := Some(token);
        callers, owned := callers[pid := Entered(token)], owned + {token};
      }
      assert Snapshot() == Step(s, TryEnter(pid, now, yieldMs));
      StepKeepsGood(s, TryEnter(pid, now, yieldMs));
    }

    // The section that closes a wait: the caller's entry goes when it entered
    // and is left unclaimed when it gave up.
    method SettleClaim(pid: nat, token: nat, acquired: bool)
      requires Valid() && pid in callers && callers[pid] == if acquired then Entered(token) else GaveUp(token)
      modifies this
      ensures Valid() && Snapshot() == Step(old(Snapshot()), Settle(pid))
      ensures acquired ==> TakenOff(old(waiters), waiters, token)
      ensures !acquired ==> LeftUnclaimed(old(waiters), waiters, token)
    {
      ghost var s := Snapshot();
      if acquired {
        KeepsExactly(waiters, OtherThan(token));
        waiters := Retain(waiters, OtherThan(token));
        callers := callers[pid := Guard(token)];
      } else {
        var at := Place(waiters, token);
        if at < |waiters| { waiters := waiters[at := waiters[at].(active := false)]; }
        callers := callers - {pid};
      }
      assert Snapshot() == Step(s, Settle(pid));
      SettleKeepsGood(s, pid);
    }

    method Drop(pid: nat, token: nat)
      requires Valid() && pid in callers && callers[pid] == Guard(token)
      modifies this
      ensures Valid() && Snapshot() == Step(old(Snapshot()), DropGuard(pid))
      ensures owner == (if old(owner) == Some(token) then None else old(owner)) && waiters == old(waiters)
    {
      ghost var s := Snapshot();
      if owner == Some(token) { owner := None; }
      callers := callers - {pid};
      assert Snapshot() == Step(s, DropGuard(pid));
      DropKeepsGood(s, pid);
    }

    method ReleaseToken(token: nat) returns (released: bool)
      requires Valid()
      modifies this
      ensures Valid() && Snapshot() == Step(old(Snapshot()), ForceRelease(token))
      ensures released <==> old(owner) == Some(token)
      ensures owner == (if released then None else old(owner)) && waiters == old(waiters)
    {
      StepKeepsGood(Snapshot(), ForceRelease(token));
      released := owner == Some(token);
      if released { owner := None; }
    }

    method Requeue(identity: nat, yieldClass: nat, now: nat)
      requires Valid()
      modifies this
      ensures Valid() && Snapshot() == Step(old(Snapshot()), RequeueFront(identity, yieldClass, now))
      ensures waiters == if exists i :: 0 <= i < |old(waiters)| && old(waiters)[i].identity == identity
        then old(waiters) else [Waiter(old(nextToken), identity, yieldClass, now, now, false)] + old(waiters)
    {
      ghost var s := Snapshot();
      var known := false;
      for i := 0 to |waiters|
        invariant known <==> exists j :: 0 <= j < i && waiters[j].identity == identity
      {
        if waiters[i].identity == identity { known := true; }
      }
      if !known {
        waiters := [Waiter(nextToken, identity, yieldClass, now, now, false)] + waiters;
        nextToken := nextToken + 1;
      }
      assert Snapshot() == Step(s, RequeueFront(identity, yieldClass, now));
      RequeueKeepsGood(s, identity, yieldClass, now);
    }
  }
}
