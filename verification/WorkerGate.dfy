// The gate in front of the worker processes: at most a pool's worth run at once,
// and callers enter strictly in the order of their tickets.
//
// Proved: in every run the k-th caller let in is the k-th that came, `running` is
// the number of live leases and never falls below zero, and with room the head of
// the queue, and nobody else, may go.
module WorkerGate {
  // `granted` lists the tickets let in so far, `leases` those still inside. An
  // underflow of `running` would show as a negative number.
  datatype State = State(running: int, nextTicket: nat, queue: seq<nat>, granted: seq<nat>, leases: set<nat>)

  datatype Op = Enter | Grant(ticket: nat) | Release(ticket: nat)

  // A waiting caller goes on when there is room and it is at the head.
  predicate MayGo(s: State, size: nat, ticket: nat) {
    s.running < size && s.queue != [] && s.queue[0] == ticket
  }

  predicate Enabled(s: State, size: nat, op: Op) {
    match op
    case Enter => true
    case Grant(ticket) => MayGo(s, size, ticket)
    case Release(ticket) => ticket in s.leases
  }

  function Step(s: State, size: nat, op: Op): State
    requires Enabled(s, size, op)
  {
    match op
    case Enter => s.(queue := s.queue + [s.nextTicket], nextTicket := s.nextTicket + 1)
    case Grant(ticket) =>
      s.(queue := s.queue[1..], running := s.running + 1,
        granted := s.granted + [ticket], leases := s.leases + {ticket})
    case Release(ticket) => s.(running := s.running - 1, leases := s.leases - {ticket})
  }

  ghost predicate Good(s: State, size: nat) {
    && s.running == |s.leases| <= size
    && (forall t :: t in s.leases ==> t < |s.granted|)
    && (forall i :: 0 <= i < |s.granted| ==> s.granted[i] == i)
    && (forall i :: 0 <= i < |s.queue| ==> s.queue[i] == |s.granted| + i)
    && s.nextTicket == |s.granted| + |s.queue|
  }

  lemma DecrementNeverUnderflows(s: State, size: nat, ticket: nat)
    requires Good(s, size) && Enabled(s, size, Release(ticket))
    ensures s.running > 0
  {
    assert |s.leases| == 0 ==> s.leases == {};
  }

  lemma StepKeepsGood(s: State, size: nat, op: Op)
    requires Good(s, size) && Enabled(s, size, op)
    ensures Good(Step(s, size, op), size)
  {
    match op
    case Enter =>
    case Grant(ticket) => assert ticket == |s.granted| && ticket !in s.leases;
    case Release(ticket) => DecrementNeverUnderflows(s, size, ticket);
  }

  const START := State(0, 0, [], [], {})

  function Turn(s: State, size: nat, op: Op): State {
    if Enabled(s, size, op) then Step(s, size, op) else s
  }

  function RunTo(size: nat, ops: seq<Op>, n: nat): State
    requires n <= |ops|
  {
    if n == 0 then START else Turn(RunTo(size, ops, n - 1), size, ops[n - 1])
  }

  lemma {:induction false} ReachableIsGood(size: nat, ops: seq<Op>, n: nat)
    requires n <= |ops|
    ensures Good(RunTo(size, ops, n), size)
  {
    if n > 0 {
      ReachableIsGood(size, ops, n - 1);
      var s := RunTo(size, ops, n - 1);
      if Enabled(s, size, ops[n - 1]) { StepKeepsGood(s, size, ops[n - 1]); }
    }
  }

  // Main result: in every run the k-th caller let in is the k-th that came, those
  // waiting are the ones that came after it, in order, and never more than the
  // pool's size are inside.
  lemma FirstComeFirstServed(size: nat, ops: seq<Op>, n: nat)
    requires n <= |ops|
    ensures var s := RunTo(size, ops, n);
      && s.running == |s.leases| <= size
      && s.granted == seq(|s.granted|, i => i)
      && s.queue == seq(|s.queue|, i => |s.granted| + i)
  {
    ReachableIsGood(size, ops, n);
  }

  // Whenever there is room and someone waits, the head and nobody else may go.
  lemma HeadIsEnabled(s: State, size: nat, ticket: nat)
    requires Good(s, size) && s.running < size && s.queue != []
    ensures Enabled(s, size, Grant(ticket)) <==> ticket == |s.granted|
  {
  }

  // A waiting ticket is at the head after exactly as many further grants as there
  // are tickets before it.
  lemma HeadAfterThoseBefore(s: State, size: nat, ops: seq<Op>, n: nat, later: nat, t: nat)
    requires n <= later <= |ops|
    requires t in RunTo(size, ops, n).queue && t in RunTo(size, ops, later).queue
    ensures RunTo(size, ops, later).queue[0] == t <==>
      |RunTo(size, ops, later).granted| - |RunTo(size, ops, n).granted| == t - RunTo(size, ops, n).queue[0]
  {
    ReachableIsGood(size, ops, n);
    ReachableIsGood(size, ops, later);
  }

  class Gate {
    var running: nat
    var nextTicket: nat
    var queue: seq<nat>
    const size: nat
    ghost var granted: seq<nat>
    ghost var leases: set<nat>

    ghost function Snapshot(): State
      reads this
    {
      State(running, nextTicket, queue, granted, leases)
    }

    ghost predicate Valid()
      reads this
    {
      Good(Snapshot(), size)
    }

    constructor (size: nat)
      ensures Valid() && Snapshot() == START && this.size == size
    {
      this.size := size;
      running, nextTicket, queue, granted, leases := 0, 0, [], [], {};
    }

    method Enter() returns (ticket: nat)
      requires Valid()
      modifies this
      ensures Valid() && Snapshot() == Step(old(Snapshot()), size, Op.Enter) && ticket == old(nextTicket)
    {
      ghost var s := Snapshot();
      ticket := nextTicket;
      nextTicket, queue := nextTicket + 1, queue + [ticket];
      StepKeepsGood(s, size, Op.Enter);
    }

    // The caller's look after each wake-up; it goes on only at the head.
    method TryGo(ticket: nat) returns (entered: bool)
      requires Valid()
      modifies this
      ensures Valid() && entered == MayGo(old(Snapshot()), size, ticket)
      ensures Snapshot() == if entered then Step(old(Snapshot()), size, Grant(ticket)) else old(Snapshot())
    {
      ghost var s := Snapshot();
      entered := running < size && queue != [] && queue[0] == ticket;
      if entered {
        queue, running := queue[1..], running + 1;
        granted, leases := granted + [ticket], leases + {ticket};
        StepKeepsGood(s, size, Grant(ticket));
      }
    }

    method Release(ghost ticket: nat)
      requires Valid() && ticket in leases
      modifies this
      ensures old(running) > 0
      ensures Valid() && Snapshot() == Step(old(Snapshot()), size, Op.Release(ticket))
    {
      ghost var s := Snapshot();
      DecrementNeverUnderflows(s, size, ticket);
      StepKeepsGood(s, size, Op.Release(ticket));
      running, leases := running - 1, leases - {ticket};
    }
  }
}
