// The ticket queue of one dispatch class: callers take a ticket, poll until it
// is served and a slot is free, or give up. A ticket given up out of turn is
// remembered as abandoned and skipped when its number comes up.
//
// Proved: in every run each issued ticket is exactly one of waiting, served and
// given up, service is in ticket order, and give-ups strand nobody.
module TicketQueue {
  import opened Wrappers

  datatype Queue = Queue(next: nat, serving: nat, abandoned: seq<nat>)

  // The queue with what happened so far: who waits, who was served, in which
  // order, and who gave up.
  datatype History = History(q: Queue, waiting: set<nat>, served: seq<nat>, gaveUp: set<nat>)

  datatype Op =
    | Take
    | Poll(ticket: nat, slotFree: bool)
    | GiveUp(ticket: nat)

  function IndexOf(s: seq<nat>, x: nat, from: nat := 0): (at: nat)
    requires from <= |s|
    ensures from <= at <= |s|
    ensures at < |s| ==> s[at] == x
    ensures forall i :: from <= i < at ==> s[i] != x
    decreases |s| - from
  {
    if from == |s| || s[from] == x then from else IndexOf(s, x, from + 1)
  }

  // Removal that moves the last entry into the gap.
  function SwapRemove(s: seq<nat>, at: nat): (r: seq<nat>)
    requires at < |s|
    ensures |r| == |s| - 1
  {
    var last := |s| - 1;
    if at == last then s[..last] else s[..last][at := s[last]]
  }

  function Skip(q: Queue): (r: Queue)
    decreases |q.abandoned|
  {
    var at := IndexOf(q.abandoned, q.serving);
    if at == |q.abandoned| then q else
      Skip(q.(serving := q.serving + 1, abandoned := SwapRemove(q.abandoned, at)))
  }

  function Abandon(q: Queue, ticket: nat): (r: Queue) {
    if ticket == q.serving then Skip(q.(serving := q.serving + 1))
    else q.(abandoned := q.abandoned + [ticket])
  }

  function Step(h: History, op: Op): History {
    match op
    case Take =>
      History(h.q.(next := h.q.next + 1), h.waiting + {h.q.next}, h.served, h.gaveUp)
    case Poll(t, slotFree) =>
      var q := Skip(h.q);
      if q.serving == t && slotFree then
        History(q.(serving := q.serving + 1), h.waiting - {t}, h.served + [t], h.gaveUp)
      else h.(q := q)
    case GiveUp(t) =>
      History(Abandon(h.q, t), h.waiting - {t}, h.served, h.gaveUp + {t})
  }

  // Only a caller that still waits polls or gives up.
  predicate Enabled(h: History, op: Op) {
    op.Take? || op.ticket in h.waiting
  }

  ghost predicate Rising(s: seq<nat>) {
    forall i, j :: 0 <= i < j < |s| ==> s[i] < s[j]
  }

  // The numbers from serving up to next are waiting or abandoned, never both.
  ghost predicate Covers(q: Queue, waiting: set<nat>) {
    && q.serving <= q.next
    && Distinct(q.abandoned)
    && (forall t :: t in q.abandoned ==> q.serving <= t < q.next && t !in waiting)
    && (forall t :: t in waiting ==> q.serving <= t < q.next)
    && (forall t :: q.serving <= t < q.next ==> t in waiting || t in q.abandoned)
  }

  // Every issued ticket is exactly one of waiting, served and abandoned; service
  // was in increasing ticket order and is past.
  ghost predicate Good(h: History) {
    && Covers(h.q, h.waiting)
    && Rising(h.served)
    && (forall t :: t in h.served ==> t < h.q.serving)
    && (forall t :: t in h.q.abandoned ==> t in h.gaveUp)
    && (forall t :: t in h.waiting ==> t !in h.gaveUp)
    && (forall t :: t in h.served ==> t !in h.gaveUp)
    && (forall t :: t in h.gaveUp ==> t < h.q.next)
    && (forall t :: 0 <= t < h.q.next ==> t in h.waiting || t in h.served || t in h.gaveUp)
  }

  lemma SwapRemoveMembers(s: seq<nat>, at: nat)
    requires at < |s| && Distinct(s)
    ensures Distinct(SwapRemove(s, at))
    ensures forall x :: x in SwapRemove(s, at) <==> x in s && x != s[at]
  {
    var r, last := SwapRemove(s, at), |s| - 1;
    forall x | x in s && x != s[at] ensures x in r {
      var i :| 0 <= i < |s| && s[i] == x;
      assert r[if i == last then at else i] == x;
    }
  }

  // Skipping moves past abandoned numbers only, and ends on one that is not.
  lemma {:induction false} SkipCovers(q: Queue, waiting: set<nat>)
    requires Covers(q, waiting)
    ensures var r := Skip(q);
      && Covers(r, waiting)
      && r.next == q.next && q.serving <= r.serving
      && r.serving !in r.abandoned
      && (forall t :: t in r.abandoned ==> t in q.abandoned)
      && (forall t :: q.serving <= t < r.serving ==> t in q.abandoned)
    decreases |q.abandoned|
  {
    var at := IndexOf(q.abandoned, q.serving);
    if at < |q.abandoned| {
      SwapRemoveMembers(q.abandoned, at);
      var p := q.(serving := q.serving + 1, abandoned := SwapRemove(q.abandoned, at));
      assert q.abandoned[at] in q.abandoned;
      SkipCovers(p, waiting);
    }
  }

  // Main result: after skipping, the number being served is the lowest waiting
  // ticket, so no pattern of give-ups strands a waiter.
  lemma LowestWaiterIsServed(h: History)
    requires Good(h)
    ensures var s := Skip(h.q).serving;
      if h.waiting == {} then s == h.q.next
      else s in h.waiting && forall t :: t in h.waiting ==> s <= t
  {
    SkipCovers(h.q, h.waiting);
    var r := Skip(h.q);
    if h.waiting != {} {
      var t :| t in h.waiting;
      assert r.serving < r.next;
    }
  }

  lemma SkipKeepsGood(h: History)
    requires Good(h)
    ensures Good(h.(q := Skip(h.q)))
  {
    SkipCovers(h.q, h.waiting);
  }

  lemma ServeKeepsGood(h: History, t: nat)
    requires Good(h) && t in h.waiting && h.q.serving == t
    ensures Good(History(h.q.(serving := t + 1), h.waiting - {t}, h.served + [t], h.gaveUp))
  {
    var served := h.served + [t];
    assert served[|h.served|] == t;
    assert forall x :: x in h.served ==> x in served;
    assert forall x :: x in served ==> x in h.served || x == t;
    forall i, j | 0 <= i < j < |served| ensures served[i] < served[j] {
      assert served[i] in h.served;
    }
  }

  lemma PollKeepsGood(h: History, t: nat, slotFree: bool)
    requires Good(h) && t in h.waiting
    ensures Good(Step(h, Poll(t, slotFree)))
  {
    SkipKeepsGood(h);
    if Skip(h.q).serving == t && slotFree {
      ServeKeepsGood(h.(q := Skip(h.q)), t);
    }
  }

  lemma AbandonCovers(q: Queue, waiting: set<nat>, t: nat)
    requires Covers(q, waiting) && t in waiting
    ensures var r := Abandon(q, t);
      && Covers(r, waiting - {t})
      && r.next == q.next && q.serving <= r.serving
      && (forall x :: x in r.abandoned ==> x in q.abandoned || x == t)
  {
    if t == q.serving {
      var p := q.(serving := q.serving + 1);
      assert forall x :: x in q.abandoned ==> x != t;
      SkipCovers(p, waiting - {t});
    } else {
      var r := q.abandoned + [t];
      assert r[|q.abandoned|] == t;
      assert forall x :: x in q.abandoned ==> x in r;
    }
  }

  lemma GiveUpKeepsGood(h: History, t: nat)
    requires Good(h) && t in h.waiting
    ensures Good(Step(h, GiveUp(t)))
  {
    AbandonCovers(h.q, h.waiting, t);
  }

  lemma StepKeepsGood(h: History, op: Op)
    requires Good(h) && Enabled(h, op)
    ensures Good(Step(h, op))
  {
    match op
    case Take =>
    case Poll(t, slotFree) => PollKeepsGood(h, t, slotFree);
    case GiveUp(t) => GiveUpKeepsGood(h, t);
  }

  function Start(): History {
    History(Queue(0, 0, []), {}, [], {})
  }

  function RunTo(ops: seq<Op>, n: nat): History
    requires n <= |ops|
  {
    if n == 0 then Start() else
      var h := RunTo(ops, n - 1);
      if Enabled(h, ops[n - 1]) then Step(h, ops[n - 1]) else h
  }

  // Main result: the partition and the service order hold in every run.
  lemma {:induction false} ReachableIsGood(ops: seq<Op>, n: nat)
    requires n <= |ops|
    ensures Good(RunTo(ops, n))
  {
    if n > 0 {
      ReachableIsGood(ops, n - 1);
      if Enabled(RunTo(ops, n - 1), ops[n - 1]) {
        StepKeepsGood(RunTo(ops, n - 1), ops[n - 1]);
      }
    }
  }

  // A ticket is never in two of the three states, whatever the run.
  lemma ExactlyOneState(ops: seq<Op>, n: nat, t: nat)
    requires n <= |ops|
    ensures var h := RunTo(ops, n);
      && (t < h.q.next <==> t in h.waiting || t in h.served || t in h.gaveUp)
      && !(t in h.waiting && t in h.served) && !(t in h.waiting && t in h.gaveUp) && !(t in h.served && t in h.gaveUp)
  {
    ReachableIsGood(ops, n);
  }

  class ClassTicketQueue {
    var nextTicket: nat
    var nowServing: nat
    var abandoned: seq<nat>
    ghost var waiting: set<nat>
    ghost var served: seq<nat>
    ghost var gaveUp: set<nat>

    ghost function Record(): History
      reads this
    {
      History(Queue(nextTicket, nowServing, abandoned), waiting, served, gaveUp)
    }

    ghost predicate Valid()
      reads this
    {
      Good(Record())
    }

    constructor ()
      ensures Valid() && Record() == Start()
    {
      nextTicket, nowServing, abandoned := 0, 0, [];
      waiting, served, gaveUp := {}, [], {};
    }

    method SkipAbandoned()
      modifies this`nowServing, this`abandoned
      ensures Queue(nextTicket, nowServing, abandoned) == Skip(old(Queue(nextTicket, nowServing, abandoned)))
    {
      var at := IndexOf(abandoned, nowServing);
      while at < |abandoned|
        invariant at == IndexOf(abandoned, nowServing)
        invariant Skip(Queue(nextTicket, nowServing, abandoned)) == Skip(old(Queue(nextTicket, nowServing, abandoned)))
        decreases |abandoned|
      {
        abandoned := SwapRemove(abandoned, at);
        nowServing := nowServing + 1;
        at := IndexOf(abandoned, nowServing);
      }
    }

    method TakeTicket() returns (ticket: nat)
      requires Valid()
      modifies this
      ensures Valid() && Record() == Step(old(Record()), Take)
      ensures ticket == old(nextTicket) && ticket in waiting
    {
      StepKeepsGood(Record(), Take);
      ticket := nextTicket;
      nextTicket := nextTicket + 1;
      waiting := waiting + {ticket};
    }

    // One poll under the lock; true when the caller got the free slot.
    method PollTicket(ticket: nat, slotFree: bool) returns (got: bool)
      requires Valid() && ticket in waiting
      modifies this
      ensures Valid() && Record() == Step(old(Record()), Poll(ticket, slotFree))
      ensures got <==> slotFree && forall t :: t in old(waiting) ==> ticket <= t
    {
      ghost var h := Record();
      LowestWaiterIsServed(h);
      SkipAbandoned();
      got := nowServing == ticket && slotFree;
      if got {
        nowServing := nowServing + 1;
        waiting, served := waiting - {ticket}, served + [ticket];
      }
      assert Record() == Step(h, Poll(ticket, slotFree));
      PollKeepsGood(h, ticket, slotFree);
    }

    method AbandonTicket(ticket: nat)
      requires Valid() && ticket in waiting
      modifies this
      ensures Valid() && Record() == Step(old(Record()), GiveUp(ticket))
    {
      ghost var h := Record();
      if ticket == nowServing {
        nowServing := nowServing + 1;
        SkipAbandoned();
      } else {
        abandoned := abandoned + [ticket];
      }
      waiting, gaveUp := waiting - {ticket}, gaveUp + {ticket};
      assert Record() == Step(h, GiveUp(ticket));
      GiveUpKeepsGood(h, ticket);
    }
  }
}
