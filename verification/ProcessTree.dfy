// The search for a process and all its descendants in a snapshot that gives each
// process's parent. Snapshots are not consistent, so the parents may form cycles.
//
// Proved: for every parent map the search ends with exactly the processes below
// the root, each once, the root first and every other after its parent.
module ProcessTree {
  import opened Wrappers

  type Pid = nat

  // `pid` is `k` steps down from the root.
  predicate Down(parentOf: map<Pid, Pid>, root: Pid, pid: Pid, k: nat)
    decreases k
  {
    if k == 0 then pid == root else pid in parentOf && Down(parentOf, root, parentOf[pid], k - 1)
  }

  ghost predicate Reachable(parentOf: map<Pid, Pid>, root: Pid, pid: Pid) {
    exists k: nat :: Down(parentOf, root, pid, k)
  }

  // The entry at `i` is the root or comes after its parent.
  predicate AfterParent(parentOf: map<Pid, Pid>, root: Pid, order: seq<Pid>, i: nat)
    requires i < |order|
  {
    order[i] == root || (order[i] in parentOf && parentOf[order[i]] in order[..i])
  }

  // Every process whose parent is in `inside` is there too, or is queued.
  ghost predicate Closed(parentOf: map<Pid, Pid>, inside: set<Pid>, queue: seq<Pid>) {
    forall pid :: pid in parentOf && parentOf[pid] in inside ==> pid in inside || pid in queue
  }

  lemma ReachableFromParent(parentOf: map<Pid, Pid>, root: Pid, pid: Pid)
    requires pid in parentOf && Reachable(parentOf, root, parentOf[pid])
    ensures Reachable(parentOf, root, pid)
  {
    var k: nat :| Down(parentOf, root, parentOf[pid], k);
    assert Down(parentOf, root, pid, k + 1);
  }

  lemma {:induction false} ClosedHoldsReachable(parentOf: map<Pid, Pid>, root: Pid, inside: set<Pid>, pid: Pid, k: nat)
    requires Closed(parentOf, inside, []) && root in inside && Down(parentOf, root, pid, k)
    ensures pid in inside
    decreases k
  {
    if k > 0 { ClosedHoldsReachable(parentOf, root, inside, parentOf[pid], k - 1); }
  }

  // ---- The search ----

  ghost predicate Lists(children: map<Pid, seq<Pid>>, parentOf: map<Pid, Pid>) {
    forall pid, p :: p in children && pid in children[p] <==> pid in parentOf && parentOf[pid] == p
  }

  // Inverts the map, in whatever order it gives its entries.
  method ChildrenOf(parentOf: map<Pid, Pid>) returns (children: map<Pid, seq<Pid>>)
    ensures Lists(children, parentOf)
  {
    children := map[];
    var left := parentOf.Keys;
    while left != {}
      invariant left <= parentOf.Keys
      invariant forall pid, p :: p in children && pid in children[p] <==>
        pid in parentOf && pid !in left && parentOf[pid] == p
    {
      var pid :| pid in left;
      var parent := parentOf[pid];
      left := left - {pid};
      children := children[parent := (if parent in children then children[parent] else []) + [pid]];
    }
  }

  // A process may be queued if it is the root or its parent has been visited.
  predicate MayBeQueued(parentOf: map<Pid, Pid>, root: Pid, visited: set<Pid>, pid: Pid) {
    pid == root || (pid in parentOf && parentOf[pid] in visited)
  }

  // The loop's state: `order` is what has been visited, `queue` what is to come.
  ghost predicate Searching(parentOf: map<Pid, Pid>, root: Pid, visited: set<Pid>, order: seq<Pid>, queue: seq<Pid>) {
    && (forall pid :: pid in visited <==> pid in order)
    && Distinct(order)
    && (forall i: nat {:trigger AfterParent(parentOf, root, order, i)} :: i < |order| ==>
      AfterParent(parentOf, root, order, i))
    && (forall pid :: pid in visited ==> Reachable(parentOf, root, pid))
    && (forall i :: 0 <= i < |queue| ==> MayBeQueued(parentOf, root, visited, queue[i]))
    && Closed(parentOf, visited, queue)
    && (if order == [] then queue == [root] else order[0] == root)
  }

  lemma QueuedIsReachable(parentOf: map<Pid, Pid>, root: Pid, visited: set<Pid>, order: seq<Pid>, queue: seq<Pid>)
    requires Searching(parentOf, root, visited, order, queue) && queue != []
    ensures Reachable(parentOf, root, queue[0])
  {
    if queue[0] == root {
      assert Down(parentOf, root, root, 0);
    } else {
      assert MayBeQueued(parentOf, root, visited, queue[0]);
      ReachableFromParent(parentOf, root, queue[0]);
    }
  }

  lemma SkipKeepsSearching(parentOf: map<Pid, Pid>, root: Pid, visited: set<Pid>, order: seq<Pid>, queue: seq<Pid>)
    requires Searching(parentOf, root, visited, order, queue) && queue != [] && queue[0] in visited
    ensures Searching(parentOf, root, visited, order, queue[1..])
  {
    assert forall pid :: pid in queue <==> pid == queue[0] || pid in queue[1..];
  }

  lemma VisitKeepsSearching(parentOf: map<Pid, Pid>, root: Pid, visited: set<Pid>, order: seq<Pid>,
      queue: seq<Pid>, kids: seq<Pid>)
    requires Searching(parentOf, root, visited, order, queue) && queue != [] && queue[0] !in visited
    requires forall pid :: pid in kids <==> pid in parentOf && parentOf[pid] == queue[0]
    ensures Searching(parentOf, root, visited + {queue[0]}, order + [queue[0]], queue[1..] + kids)
  {
    QueuedIsReachable(parentOf, root, visited, order, queue);
    var order', queue' := order + [queue[0]], queue[1..] + kids;
    assert forall pid :: pid in queue <==> pid == queue[0] || pid in queue[1..];
    assert forall pid :: pid in queue' <==> pid in queue[1..] || pid in kids;
    forall i: nat | i < |order'| ensures AfterParent(parentOf, root, order', i) {
      if i < |order| {
        assert AfterParent(parentOf, root, order, i);
        assert order'[..i] == order[..i];
      } else {
        assert MayBeQueued(parentOf, root, visited, queue[0]);
        assert order'[..i] == order;
      }
    }
  }

  lemma SearchEnds(parentOf: map<Pid, Pid>, root: Pid, visited: set<Pid>, order: seq<Pid>)
    requires Searching(parentOf, root, visited, order, [])
    ensures |order| > 0 && order[0] == root
    ensures forall pid :: pid in order <==> Reachable(parentOf, root, pid)
    ensures forall i :: 0 < i < |order| ==> order[i] in parentOf && parentOf[order[i]] in order[..i]
  {
    forall pid | Reachable(parentOf, root, pid) ensures pid in order {
      var k: nat :| Down(parentOf, root, pid, k);
      assert order[0] in visited;
      ClosedHoldsReachable(parentOf, root, visited, pid, k);
    }
    forall i | 0 < i < |order| ensures order[i] in parentOf && parentOf[order[i]] in order[..i] {
      assert AfterParent(parentOf, root, order, i);
    }
  }

  // The root first, then exactly the processes below it, each once and after its
  // parent.
  method DescendantsRootFirst(root: Pid, parentOf: map<Pid, Pid>) returns (order: seq<Pid>)
    ensures |order| > 0 && order[0] == root && Distinct(order)
    ensures forall pid :: pid in order <==> Reachable(parentOf, root, pid)
    ensures forall i :: 0 < i < |order| ==> order[i] in parentOf && parentOf[order[i]] in order[..i]
  {
    var children := ChildrenOf(parentOf);
    var visited: set<Pid> := {};
    var queue := [root];
    ghost var universe := parentOf.Keys + {root};
    order := [];
    while queue != []
      invariant Searching(parentOf, root, visited, order, queue) && visited <= universe
      decreases universe - visited, |queue|
    {
      var pid := queue[0];
      if pid in visited {
        SkipKeepsSearching(parentOf, root, visited, order, queue);
        queue := queue[1..];
      } else {
        var kids := if pid in children then children[pid] else [];
        VisitKeepsSearching(parentOf, root, visited, order, queue, kids);
        assert pid in universe - visited;
        visited, order, queue := visited + {pid}, order + [pid], queue[1..] + kids;
      }
    }
    SearchEnds(parentOf, root, visited, order);
  }
}
