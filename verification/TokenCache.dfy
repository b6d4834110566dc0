// The cached GitHub token: a single lookup at a time, results kept for a while, and invalidation that a lookup
// under way must not undo. A caller's look at the cache, the end of its lookup and the end of its refresh are
// separate lock sections; invalidation may come between any two.
module TokenCache {
  import opened Wrappers

  const SUCCESS_TTL := 60
  const NEGATIVE_TTL := 10

  type Key = nat
  type Token = nat

  // `generation` counts invalidations.
  datatype Cache = Cache(key: Option<Key>, token: Option<Token>, checkedAt: Option<nat>, refreshing: bool,
    generation: nat)

  // A caller asks, looks up (remembering the generation it saw and the event its
  // lookup began with), and ends its refresh.
  datatype Caller =
    | Asking(key: Key, deadline: nat)
    | Looking(key: Key, deadline: nat, generation: nat, began: nat)
    | Ending

  // What happened, in lock order. A stored result names its lookup's beginning.
  datatype Event =
    | Began(key: Key)
    | Stored(began: nat, key: Key, token: Option<Token>, at: nat)
    | Served(key: Key, token: Option<Token>, now: nat)
    | Invalidated

  // `origin` is the event that stored what the cache holds.
  datatype State = State(cache: Cache, callers: map<nat, Caller>, events: seq<Event>, origin: nat)

  datatype Op =
    | Ask(pid: nat, key: Key, deadline: nat)
    | Look(pid: nat, now: nat)
    | FinishLookup(pid: nat, token: Option<Token>, now: nat)
    | AbortLookup(pid: nat)
    | EndRefresh(pid: nat)
    | Invalidate

  datatype Verdict = Answer(token: Option<Token>) | Refuse | Refresh | Wait

  function Ttl(token: Option<Token>): nat {
    if token.Some? then SUCCESS_TTL else NEGATIVE_TTL
  }

  // The cache has an answer for the key that is not too old: 60 s for a token, 10 s
  // for there being none.
  predicate FreshFor(c: Cache, key: Key, now: nat) {
    c.key == Some(key) && c.checkedAt.Some? && now < c.checkedAt.value + (if c.token.Some? then 60 else 10)
  }

  // Exactly a fresh answer is served; without one the deadline refuses, and before
  // it a caller refreshes if nobody else does and waits otherwise.
  ghost predicate JudgedBy(c: Cache, key: Key, deadline: nat, now: nat, verdict: Verdict) {
    && (verdict == Answer(c.token) <==> FreshFor(c, key, now))
    && (verdict == Refuse <==> !FreshFor(c, key, now) && deadline <= now)
    && (verdict == Refresh <==> !FreshFor(c, key, now) && now < deadline && !c.refreshing)
    && (verdict == Wait <==> !FreshFor(c, key, now) && now < deadline && c.refreshing)
  }

  // What a caller does when it holds the lock.
  function Judge(c: Cache, key: Key, deadline: nat, now: nat): (verdict: Verdict)
    ensures JudgedBy(c, key, deadline, now, verdict)
  {
    if c.key == Some(key) && c.checkedAt.Some? && Minus(now, c.checkedAt.value) < Ttl(c.token) then Answer(c.token)
    else if !c.refreshing then (if now >= deadline then Refuse else Refresh)
    else if now >= deadline then Refuse
    else Wait
  }

  predicate Enabled(s: State, op: Op) {
    match op
    case Ask(pid, _, _) => pid !in s.callers
    case Look(pid, _) => pid in s.callers && s.callers[pid].Asking?
    case FinishLookup(pid, _, _) => pid in s.callers && s.callers[pid].Looking?
    case AbortLookup(pid) => pid in s.callers && s.callers[pid].Looking?
    case EndRefresh(pid) => pid in s.callers && s.callers[pid].Ending?
    case Invalidate => true
  }

  function Step(s: State, op: Op): State
    requires Enabled(s, op)
  {
    match op
    case Ask(pid, key, deadline) => s.(callers := s.callers[pid := Asking(key, deadline)])
    case Look(pid, now) =>
      var c := s.callers[pid];
      (match Judge(s.cache, c.key, c.deadline, now)
       case Answer(token) =>
         s.(callers := s.callers - {pid}, events := s.events + [Served(c.key, token, now)])
       case Refuse => s.(callers := s.callers - {pid})
       case Refresh =>
         State(s.cache.(refreshing := true),
               s.callers[pid := Looking(c.key, c.deadline, s.cache.generation, |s.events|)],
               s.events + [Began(c.key)], s.origin)
       case Wait => s)
    case FinishLookup(pid, token, now) =>
      var c := s.callers[pid];
      if s.cache.generation != c.generation then s.(callers := s.callers[pid := Ending]) else
        State(s.cache.(key := Some(c.key), token := token, checkedAt := Some(now)),
              s.callers[pid := Ending],
              s.events + [Stored(c.began, c.key, token, now)], |s.events|)
    case AbortLookup(pid) =>
      s.(cache := s.cache.(refreshing := false), callers := s.callers - {pid})
    case EndRefresh(pid) =>
      s.(cache := s.cache.(refreshing := false), callers := s.callers - {pid})
    case Invalidate =>
      s.(cache := s.cache.(token := None, checkedAt := None, generation := s.cache.generation + 1),
         events := s.events + [Invalidated])
  }

  // ---- What the history must satisfy ----

  ghost predicate Undisturbed(events: seq<Event>, from: nat, to: nat) {
    forall i :: from < i < to && i < |events| ==> !events[i].Invalidated?
  }

  // Event `at` stored the result of a lookup for that key, begun before it and
  // with no invalidation since the beginning up to `to`.
  ghost predicate FreshStore(events: seq<Event>, at: nat, key: Key, token: Option<Token>, to: nat) {
    && at < |events| && at < to
    && events[at].Stored? && events[at].key == key && events[at].token == token
    && events[at].began < at && events[events[at].began] == Began(key)
    && Undisturbed(events, events[at].began, to)
  }

  // Something served is backed by such a result, still within its lifetime.
  ghost predicate Backed(events: seq<Event>, served: Event, to: nat)
    requires served.Served?
  {
    exists at: nat :: FreshStore(events, at, served.key, served.token, to) &&
      Minus(served.now, events[at].at) < Ttl(served.token)
  }

  // Everything stored, and everything served from the cache, came from a lookup
  // for the same key that began after the latest invalidation; what was served
  // was within its lifetime.
  ghost predicate Honest(events: seq<Event>) {
    && (forall i :: 0 <= i < |events| && events[i].Stored? ==>
      FreshStore(events, i, events[i].key, events[i].token, i + 1))
    && (forall i :: 0 <= i < |events| && events[i].Served? ==> Backed(events, events[i], i))
  }

  predicate Refreshing(c: Caller) {
    c.Looking? || c.Ending?
  }

  ghost predicate SingleFlight(s: State) {
    && (forall p, q :: p in s.callers && q in s.callers ==>
      Refreshing(s.callers[p]) && Refreshing(s.callers[q]) ==> p == q)
    && (s.cache.refreshing <==> exists p :: p in s.callers && Refreshing(s.callers[p]))
  }

  ghost predicate LookupKnown(s: State, c: Caller)
    requires c.Looking?
  {
    && c.began < |s.events| && s.events[c.began] == Began(c.key)
    && c.generation <= s.cache.generation
    && (c.generation == s.cache.generation ==> Undisturbed(s.events, c.began, |s.events|))
  }

  ghost predicate CacheKnown(s: State) {
    s.cache.checkedAt.Some? ==>
      && s.cache.key.Some?
      && FreshStore(s.events, s.origin, s.cache.key.value, s.cache.token, |s.events|)
      && s.events[s.origin].at == s.cache.checkedAt.value
  }

  ghost predicate Good(s: State) {
    && SingleFlight(s)
    && Honest(s.events)
    && CacheKnown(s)
    && forall p :: p in s.callers && s.callers[p].Looking? ==> LookupKnown(s, s.callers[p])
  }

  // ---- Appending an event ----

  lemma StoreSurvives(events: seq<Event>, e: Event, at: nat, key: Key, token: Option<Token>, to: nat)
    requires FreshStore(events, at, key, token, to) && to <= |events|
    ensures FreshStore(events + [e], at, key, token, to)
    ensures to == |events| && !e.Invalidated? ==> FreshStore(events + [e], at, key, token, to + 1)
  {
    var next := events + [e];
    assert forall i :: 0 <= i < |events| ==> next[i] == events[i];
  }

  lemma HonestGrows(events: seq<Event>, e: Event)
    requires Honest(events)
    requires e.Stored? ==> FreshStore(events + [e], |events|, e.key, e.token, |events| + 1)
    requires e.Served? ==> Backed(events, e, |events|)
    ensures Honest(events + [e])
  {
    var next := events + [e];
    forall i | 0 <= i < |next| && next[i].Stored? ensures FreshStore(next, i, next[i].key, next[i].token, i + 1) {
      if i < |events| { StoreSurvives(events, e, i, next[i].key, next[i].token, i + 1); }
    }
    forall i | 0 <= i < |next| && next[i].Served? ensures Backed(next, next[i], i) {
      var at: nat :| FreshStore(events, at, next[i].key, next[i].token, i) &&
        Minus(next[i].now, events[at].at) < Ttl(next[i].token);
      StoreSurvives(events, e, at, next[i].key, next[i].token, i);
    }
  }

  // An event that is no invalidation leaves every lookup and the cache known.
  lemma KnownSurvives(s: State, e: Event)
    requires Good(s) && !e.Invalidated?
    ensures CacheKnown(s.(events := s.events + [e]))
    ensures forall p :: p in s.callers && s.callers[p].Looking? ==>
      LookupKnown(s.(events := s.events + [e]), s.callers[p])
  {
    if s.cache.checkedAt.Some? {
      StoreSurvives(s.events, e, s.origin, s.cache.key.value, s.cache.token, |s.events|);
    }
  }

  // ---- The invariant survives every step ----

  lemma ServeKeepsGood(s: State, pid: nat, now: nat)
    requires Good(s) && Enabled(s, Look(pid, now))
    requires Judge(s.cache, s.callers[pid].key, s.callers[pid].deadline, now).Answer?
    ensures Good(Step(s, Look(pid, now)))
  {
    var e := Served(s.callers[pid].key, s.cache.token, now);
    assert Backed(s.events, e, |s.events|);
    HonestGrows(s.events, e);
    KnownSurvives(s, e);
    LeaverKeepsFlight(s, pid, s.cache.refreshing);
  }

  lemma LeaverKeepsFlight(s: State, pid: nat, refreshing: bool)
    requires SingleFlight(s) && pid in s.callers
    requires refreshing == (s.cache.refreshing && !Refreshing(s.callers[pid]))
    ensures SingleFlight(s.(cache := s.cache.(refreshing := refreshing), callers := s.callers - {pid}))
  {
    var callers := s.callers - {pid};
    if refreshing {
      var p :| p in s.callers && Refreshing(s.callers[p]);
      assert p in callers && Refreshing(callers[p]);
    }
  }

  lemma BeginKeepsGood(s: State, pid: nat, now: nat)
    requires Good(s) && Enabled(s, Look(pid, now))
    requires Judge(s.cache, s.callers[pid].key, s.callers[pid].deadline, now).Refresh?
    ensures Good(Step(s, Look(pid, now)))
  {
    var s', e := Step(s, Look(pid, now)), Began(s.callers[pid].key);
    HonestGrows(s.events, e);
    KnownSurvives(s, e);
    assert s'.callers[pid].Looking? && LookupKnown(s', s'.callers[pid]);
    assert Refreshing(s'.callers[pid]);
  }

  lemma FinishKeepsGood(s: State, pid: nat, token: Option<Token>, now: nat)
    requires Good(s) && Enabled(s, FinishLookup(pid, token, now))
    ensures Good(Step(s, FinishLookup(pid, token, now)))
  {
    var c, s' := s.callers[pid], Step(s, FinishLookup(pid, token, now));
    assert Refreshing(s'.callers[pid]);
    assert SingleFlight(s');
    if s.cache.generation == c.generation {
      var e := Stored(c.began, c.key, token, now);
      assert LookupKnown(s, c);
      assert FreshStore(s.events + [e], |s.events|, c.key, token, |s.events| + 1) by {
        assert forall i :: 0 <= i < |s.events| ==> (s.events + [e])[i] == s.events[i];
      }
      HonestGrows(s.events, e);
      KnownSurvives(s, e);
    }
  }

  lemma InvalidateKeepsGood(s: State)
    requires Good(s)
    ensures Good(Step(s, Invalidate))
  {
    HonestGrows(s.events, Invalidated);
  }

  lemma StepKeepsGood(s: State, op: Op)
    requires Good(s) && Enabled(s, op)
    ensures Good(Step(s, op))
  {
    match op
    case Ask(pid, key, deadline) =>
      if s.cache.refreshing {
        var p :| p in s.callers && Refreshing(s.callers[p]);
        assert Refreshing(Step(s, op).callers[p]);
      }
    case Look(pid, now) =>
      match Judge(s.cache, s.callers[pid].key, s.callers[pid].deadline, now) {
        case Answer(_) => ServeKeepsGood(s, pid, now);
        case Refuse => LeaverKeepsFlight(s, pid, s.cache.refreshing);
        case Refresh => BeginKeepsGood(s, pid, now);
        case Wait =>
      }
    case FinishLookup(pid, token, now) => FinishKeepsGood(s, pid, token, now);
    case AbortLookup(pid) => LeaverKeepsFlight(s, pid, false);
    case EndRefresh(pid) => LeaverKeepsFlight(s, pid, false);
    case Invalidate => InvalidateKeepsGood(s);
  }

  // ---- Whole runs ----

  const START := State(Cache(None, None, None, false, 0), map[], [], 0)

  function RunTo(ops: seq<Op>, n: nat): State
    requires n <= |ops|
  {
    if n == 0 then START else
      var s := RunTo(ops, n - 1);
      if Enabled(s, ops[n - 1]) then Step(s, ops[n - 1]) else s
  }

  // Main result: the invariant holds in every run.
  lemma {:induction false} ReachableIsGood(ops: seq<Op>, n: nat)
    requires n <= |ops|
    ensures Good(RunTo(ops, n))
  {
    if n > 0 {
      ReachableIsGood(ops, n - 1);
      if Enabled(RunTo(ops, n - 1), ops[n - 1]) {
        StepKeepsGood(RunTo(ops, n - 1), ops[n - 1]);
      }
    }
  }

  // In every run, what a caller is served from the cache was found by a lookup
  // for its own key, less than a lifetime ago, and begun after every earlier
  // invalidation.
  lemma ServedIsFresh(ops: seq<Op>, n: nat, i: nat) returns (began: nat, at: nat)
    requires n <= |ops|
    requires i < |RunTo(ops, n).events| && RunTo(ops, n).events[i].Served?
    ensures began < at < i
    ensures var events := RunTo(ops, n).events;
      && events[began] == Began(events[i].key)
      && events[at].Stored? && events[at].began == began
      && events[at].key == events[i].key && events[at].token == events[i].token
      && Minus(events[i].now, events[at].at) < Ttl(events[i].token)
      && forall j: nat :: began < j < i ==> events[j] != Invalidated
  {
    ReachableIsGood(ops, n);
    var events := RunTo(ops, n).events;
    assert Backed(events, events[i], i);
    at :| FreshStore(events, at, events[i].key, events[i].token, i) &&
      Minus(events[i].now, events[at].at) < Ttl(events[i].token);
    began := events[at].began;
  }

  // In every run at most one caller is looking up or ending its refresh.
  lemma OneLookup(ops: seq<Op>, n: nat, p: nat, q: nat)
    requires n <= |ops|
    requires p in RunTo(ops, n).callers && Refreshing(RunTo(ops, n).callers[p])
    requires q in RunTo(ops, n).callers && Refreshing(RunTo(ops, n).callers[q])
    ensures p == q
  {
    ReachableIsGood(ops, n);
  }

  // A look at an idle cache never waits: a caller waits only while another
  // caller's refresh is still to end.
  lemma WaitsOnlyForAnother(s: State, pid: nat, now: nat)
    requires Good(s) && Enabled(s, Look(pid, now))
    requires Judge(s.cache, s.callers[pid].key, s.callers[pid].deadline, now).Wait?
    ensures exists p :: p in s.callers && p != pid && Refreshing(s.callers[p])
  {
    var p :| p in s.callers && Refreshing(s.callers[p]);
    assert p != pid;
  }

  // ---- The cache itself ----

  // `callers`, `events` and `origin` follow the run; the other fields are the
  // shared state the lock protects.
  class SharedCache {
    var key: Option<Key>
    var token: Option<Token>
    var checkedAt: Option<nat>
    var refreshing: bool
    var generation: nat
    ghost var callers: map<nat, Caller>
    ghost var events: seq<Event>
    ghost var origin: nat

    ghost function Snapshot(): State
      reads this
    {
      State(Cache(key, token, checkedAt, refreshing, generation), callers, events, origin)
    }

    ghost predicate Valid()
      reads this
    {
      Good(Snapshot())
    }

    constructor ()
      ensures Valid() && Snapshot() == START
    {
      key, token, checkedAt, refreshing, generation := None, None, None, false, 0;
      callers, events, origin := map[], [], 0;
    }

    // One turn of the retry loop. On `Refresh` the caller goes on to look up and
    // must present `seen` afterwards.
    method Check(pid: nat, wanted: Key, deadline: nat, now: nat) returns (verdict: Verdict, seen: nat)
      requires Valid() && pid in callers && callers[pid] == Asking(wanted, deadline)
      modifies this
      ensures Valid() && Snapshot() == Step(old(Snapshot()), Look(pid, now))
      ensures verdict == Judge(old(Snapshot()).cache, wanted, deadline, now) && seen == old(generation)
      ensures JudgedBy(old(Snapshot()).cache, wanted, deadline, now, verdict)
      ensures refreshing == (old(refreshing) || verdict.Refresh?) && token == old(token) && key == old(key)
    {
      ghost var s, op := Snapshot(), Look(pid, now);
      seen := generation;
      var ttl := if token.Some? then SUCCESS_TTL else NEGATIVE_TTL;
      if key == Some(wanted) && checkedAt.Some? && Minus(now, checkedAt.value) < ttl {
        verdict := Answer(token);
        callers, events := callers - {pid}, events + [Served(wanted, token, now)];
      } else if !refreshing {
        if now >= deadline {
          verdict := Refuse;
          callers := callers - {pid};
        } else {
          verdict := Refresh;
          refreshing := true;
          callers := callers[pid := Looking(wanted, deadline, generation, |events|)];
          events := events + [Began(wanted)];
        }
      } else if now >= deadline {
        verdict := Refuse;
        callers := callers - {pid};
      } else {
        verdict := Wait;
      }
      assert Snapshot() == Step(s, op);
      StepKeepsGood(s, op);
    }

    // After the lookup: a result from before an invalidation is dropped.
    method StoreResult(pid: nat, wanted: Key, seen: nat, found: Option<Token>, now: nat) returns (answer: Option<Token>)
      requires Valid() && pid in callers && callers[pid].Looking?
      requires callers[pid].key == wanted && callers[pid].generation == seen
      modifies this
      ensures Valid() && Snapshot() == Step(old(Snapshot()), FinishLookup(pid, found, now))
      ensures answer == if old(generation) == seen then found else None
      ensures if old(generation) == seen then key == Some(wanted) && token == found && checkedAt == Some(now)
              else key == old(key) && token == old(token) && checkedAt == old(checkedAt)
    {
      ghost var s, op := Snapshot(), FinishLookup(pid, found, now);
      if generation != seen {
        answer := None;
        callers := callers[pid := Ending];
      } else {
        key, token, checkedAt := Some(wanted), found, Some(now);
        origin := |events|;
        events := events + [Stored(callers[pid].began, wanted, found, now)];
        callers := callers[pid := Ending];
        answer := found;
      }
      assert Snapshot() == Step(s, op);
      StepKeepsGood(s, op);
    }

    // The guard's end, after a stored result or from a lookup that unwound.
    method EndRefresh(pid: nat)
      requires Valid() && pid in callers && Refreshing(callers[pid])
      modifies this
      ensures Valid()
      ensures Snapshot() ==
        Step(old(Snapshot()), if old(callers)[pid].Ending? then Op.EndRefresh(pid) else AbortLookup(pid))
      ensures !refreshing
    {
      ghost var s, op := Snapshot(), if callers[pid].Ending? then Op.EndRefresh(pid) else AbortLookup(pid);
      refreshing := false;
      callers := callers - {pid};
      assert Snapshot() == Step(s, op);
      StepKeepsGood(s, op);
    }

    method Invalidate()
      requires Valid()
      modifies this
      ensures Valid() && Snapshot() == Step(old(Snapshot()), Op.Invalidate)
      ensures token == None && checkedAt == None && generation == old(generation) + 1
    {
      ghost var s := Snapshot();
      token, checkedAt, generation := None, None, generation + 1;
      events := events + [Invalidated];
      assert Snapshot() == Step(s, Op.Invalidate);
      StepKeepsGood(s, Op.Invalidate);
    }
  }
}
