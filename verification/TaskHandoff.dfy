// Background tasks: polling them, answering for them, and handing their results
// to the store before another host takes over. Task deadlines are instants of a
// monotone clock; `finishedMs` and retention use the wall clock.
module TaskHandoff {
  import opened TaskResults
  import opened Wrappers

  const ADOPTED_TASK_TIMEOUT_MS := 30 * 60 * 1000
  const ORPHAN_IDLE_MS := 120000

  // A pipe still being drained holds what has arrived.
  datatype Task = Task(
    lang: Name, startedMs: nat, deadline: nat, stdoutPipe: Option<seq<Byte>>, stderrPipe: Option<seq<Byte>>,
    stdout: seq<Byte>, stderr: seq<Byte>, exitCode: Option<int>, finishedMs: Option<nat>, timedOut: bool,
    idleDeadline: Option<nat>, orphaned: bool)

  datatype ChildStatus = Exited(code: Option<int>) | Running | Unknown

  // What a poll finds: both clocks, the child, whether each pipe has ended, and
  // what a child without a drained pipe still had to say.
  datatype Sight = Sight(
    instant: nat, wallMs: nat, child: ChildStatus, stdoutEnded: bool, stderrEnded: bool,
    stdoutRest: seq<Byte>, stderrRest: seq<Byte>)

  function OrphanReapAt(from: nat, deadline: nat): (at: nat)
    ensures at >= deadline && at >= from + ORPHAN_IDLE_MS
  {
    if from + ORPHAN_IDLE_MS < deadline then deadline else from + ORPHAN_IDLE_MS
  }

  // ---- Tasks at their start ----

  datatype Beginning =
    | Spawned(lang: Name, startedMs: nat, startedAt: nat, timeoutMs: nat)
    | Adopted(lang: Name, startedMs: nat, startedAt: nat, timeoutMs: nat, now: nat,
              stdoutPipe: Option<seq<Byte>>, stderrPipe: Option<seq<Byte>>)

  // A spawned task has the time it was given, an adopted one at most 30 minutes.
  function DeadlineOf(b: Beginning): (at: nat)
    ensures b.Spawned? ==> at == b.startedAt + b.timeoutMs
    ensures b.Adopted? ==> at <= b.startedAt + b.timeoutMs && at <= b.startedAt + 1800000
    ensures at == b.startedAt + b.timeoutMs || at == b.startedAt + 1800000
  {
    b.startedAt + (if b.Adopted? && b.timeoutMs > ADOPTED_TASK_TIMEOUT_MS then ADOPTED_TASK_TIMEOUT_MS else b.timeoutMs)
  }

  // Only an adopted task has an idle clock.
  function FirstEntry(b: Beginning): Task {
    match b
    case Spawned(lang, startedMs, _, _) =>
      Task(lang, startedMs, DeadlineOf(b), Some([]), Some([]), [], [], None, None, false, None, false)
    case Adopted(lang, startedMs, _, _, now, stdoutPipe, stderrPipe) =>
      Task(lang, startedMs, DeadlineOf(b), stdoutPipe, stderrPipe, [], [], None, None, false,
           Some(OrphanReapAt(now, DeadlineOf(b))), false)
  }

  // ---- One poll ----

  function Harvest(t: Task, seen: Sight): Task {
    var t1 := if t.stdoutPipe.Some? && seen.stdoutEnded
      then t.(stdout := t.stdoutPipe.value, stdoutPipe := None) else t;
    if t1.stderrPipe.Some? && seen.stderrEnded then t1.(stderr := t1.stderrPipe.value, stderrPipe := None) else t1
  }

  function Finish(t: Task, seen: Sight, exitCode: Option<int>, timedOut: bool, orphaned: bool): Task {
    Harvest(t.(stdout := if t.stdoutPipe.None? then t.stdout + seen.stdoutRest else t.stdout,
               stderr := if t.stderrPipe.None? then t.stderr + seen.stderrRest else t.stderr,
               exitCode := exitCode, finishedMs := Some(seen.wallMs), timedOut := timedOut, orphaned := orphaned), seen)
  }

  function Polled(t: Task, seen: Sight): Task {
    if t.finishedMs.Some? then Harvest(t, seen)
    else
      match seen.child
      case Exited(code) => Finish(t, seen, code, t.timedOut, t.orphaned)
      case Running =>
        var idleExpired := t.idleDeadline.Some? && seen.instant >= t.idleDeadline.value;
        if seen.instant >= t.deadline || idleExpired then
          var orphaned := idleExpired && seen.instant < t.deadline;
          Finish(t, seen, Some(-1), !orphaned, orphaned)
        else t
      case Unknown => t
  }

  // A caller asking about the task restarts its idle clock.
  function Touched(t: Task, now: nat): Task {
    if t.finishedMs.Some? || t.idleDeadline.None? then t else t.(idleDeadline := Some(OrphanReapAt(now, t.deadline)))
  }

  function Drained(t: Task, stdoutMore: seq<Byte>, stderrMore: seq<Byte>): Task {
    t.(stdoutPipe := if t.stdoutPipe.Some? then Some(t.stdoutPipe.value + stdoutMore) else None,
       stderrPipe := if t.stderrPipe.Some? then Some(t.stderrPipe.value + stderrMore) else None)
  }

  predicate DrainsPending(t: Task) {
    t.stdoutPipe.Some? || t.stderrPipe.Some?
  }

  predicate Blocking(t: Task): (blocking: bool)
    ensures !blocking <==> t.finishedMs.Some? && t.stdoutPipe.None? && t.stderrPipe.None?
  {
    t.finishedMs.None? || DrainsPending(t)
  }

  // ---- The life of one task ----

  datatype TaskOp = Poll(seen: Sight) | Touch(now: nat) | Drain(stdoutMore: seq<Byte>, stderrMore: seq<Byte>)

  function TaskStep(t: Task, op: TaskOp): Task {
    match op
    case Poll(seen) => Polled(t, seen)
    case Touch(now) => Touched(t, now)
    case Drain(stdoutMore, stderrMore) => Drained(t, stdoutMore, stderrMore)
  }

  function TaskAfter(t: Task, ops: seq<TaskOp>, n: nat): Task
    requires n <= |ops|
  {
    if n == 0 then t else TaskStep(TaskAfter(t, ops, n - 1), ops[n - 1])
  }

  // The idle clock never runs out before the deadline, so the deadline is what
  // kills a task and none is ever labelled orphaned.
  predicate NeverOrphaned(t: Task) {
    && !t.orphaned
    && (t.idleDeadline.Some? ==> t.idleDeadline.value >= t.deadline)
    && (t.finishedMs.None? ==> t.exitCode.None? && !t.timedOut)
    && (t.timedOut ==> t.exitCode == Some(-1))
  }

  lemma StepIsNeverOrphaned(t: Task, op: TaskOp)
    requires NeverOrphaned(t)
    ensures NeverOrphaned(TaskStep(t, op)) && TaskStep(t, op).deadline == t.deadline
  {
  }

  lemma {:induction false} TasksAreNeverOrphaned(b: Beginning, ops: seq<TaskOp>, n: nat)
    requires n <= |ops|
    ensures NeverOrphaned(TaskAfter(FirstEntry(b), ops, n))
    ensures TaskAfter(FirstEntry(b), ops, n).deadline == DeadlineOf(b)
    ensures var t := TaskAfter(FirstEntry(b), ops, n);
      && !t.orphaned && (t.timedOut ==> t.exitCode == Some(-1))
      && (t.finishedMs.None? ==> t.exitCode.None? && !t.timedOut)
  {
    if n > 0 {
      TasksAreNeverOrphaned(b, ops, n - 1);
      StepIsNeverOrphaned(TaskAfter(FirstEntry(b), ops, n - 1), ops[n - 1]);
    }
  }

  // A poll that finds the child running at or after its deadline.
  predicate Overruns(t: Task, op: TaskOp) {
    t.finishedMs.None? && op.Poll? && op.seen.child.Running? && op.seen.instant >= t.deadline
  }

  lemma StepLabels(t: Task, op: TaskOp)
    requires NeverOrphaned(t)
    ensures TaskStep(t, op).timedOut <==> t.timedOut || Overruns(t, op)
  {
  }

  predicate OverrunAt(b: Beginning, ops: seq<TaskOp>, i: nat) {
    i < |ops| && Overruns(TaskAfter(FirstEntry(b), ops, i), ops[i])
  }

  // Main result: in any life of a task the timeout label says exactly that some
  // poll found it running past its deadline; the idle clock labels nothing.
  lemma {:induction false} LabelledExactlyWhenOverrun(b: Beginning, ops: seq<TaskOp>, n: nat)
    requires n <= |ops|
    ensures TaskAfter(FirstEntry(b), ops, n).timedOut <==>
      exists i: nat :: i < n && OverrunAt(b, ops, i)
  {
    if n > 0 {
      LabelledExactlyWhenOverrun(b, ops, n - 1);
      TasksAreNeverOrphaned(b, ops, n - 1);
      StepLabels(TaskAfter(FirstEntry(b), ops, n - 1), ops[n - 1]);
      assert TaskAfter(FirstEntry(b), ops, n).timedOut <==>
        TaskAfter(FirstEntry(b), ops, n - 1).timedOut || OverrunAt(b, ops, n - 1);
    }
  }

  // No poll kills a task before its deadline, idle or not.
  lemma NeverKilledEarly(b: Beginning, ops: seq<TaskOp>, n: nat, seen: Sight)
    requires n <= |ops|
    requires seen.child.Running? && seen.instant < DeadlineOf(b) && TaskAfter(FirstEntry(b), ops, n).finishedMs.None?
    ensures Polled(TaskAfter(FirstEntry(b), ops, n), seen) == TaskAfter(FirstEntry(b), ops, n)
  {
    TasksAreNeverOrphaned(b, ops, n);
  }

  // A finished task whose pipes have ended never changes again.
  lemma {:induction false} SettledStays(t: Task, ops: seq<TaskOp>, n: nat)
    requires n <= |ops| && !Blocking(t)
    ensures TaskAfter(t, ops, n) == t
  {
    if n > 0 { SettledStays(t, ops, n - 1); }
  }

  // ---- Live and stored replies ----

  function StdoutSoFar(t: Task): seq<Byte> {
    if t.stdoutPipe.Some? then t.stdoutPipe.value else t.stdout
  }

  function StderrSoFar(t: Task): seq<Byte> {
    if t.stderrPipe.Some? then t.stderrPipe.value else t.stderr
  }

  // ---- What a task wrote ----

  datatype Stream = Stdout | Stderr

  function PipeOf(t: Task, stream: Stream): Option<seq<Byte>> {
    if stream.Stdout? then t.stdoutPipe else t.stderrPipe
  }

  function SoFar(t: Task, stream: Stream): seq<Byte> {
    if stream.Stdout? then StdoutSoFar(t) else StderrSoFar(t)
  }

  // What one step brought: what arrived in a pipe still being drained, or what a
  // child without one had left to say when it was found finished.
  function Brought(t: Task, op: TaskOp, stream: Stream): seq<Byte> {
    match op
    case Touch(_) => []
    case Drain(stdoutMore, stderrMore) =>
      if PipeOf(t, stream).None? then [] else if stream.Stdout? then stdoutMore else stderrMore
    case Poll(seen) =>
      if PipeOf(t, stream).Some? || t.finishedMs.Some? || TaskStep(t, op).finishedMs.None? then []
      else if stream.Stdout? then seen.stdoutRest else seen.stderrRest
  }

  // Everything the task wrote by step n, in order.
  function WrittenBy(b: Beginning, ops: seq<TaskOp>, n: nat, stream: Stream): seq<Byte>
    requires n <= |ops|
  {
    if n > 0 then WrittenBy(b, ops, n - 1, stream) + Brought(TaskAfter(FirstEntry(b), ops, n - 1), ops[n - 1], stream)
    else if b.Spawned? then []
    else
      match (if stream.Stdout? then b.stdoutPipe else b.stderrPipe)
      case Some(bytes) => bytes
      case None => []
  }

  lemma HarvestKeeps(t: Task, seen: Sight, stream: Stream)
    ensures SoFar(Harvest(t, seen), stream) == SoFar(t, stream)
    ensures Harvest(t, seen).finishedMs == t.finishedMs
  {
  }

  lemma FinishAppends(t: Task, seen: Sight, exitCode: Option<int>, timedOut: bool, orphaned: bool, stream: Stream)
    ensures var rest := if stream.Stdout? then seen.stdoutRest else seen.stderrRest;
      SoFar(Finish(t, seen, exitCode, timedOut, orphaned), stream) ==
      SoFar(t, stream) + if PipeOf(t, stream).None? then rest else []
    ensures Finish(t, seen, exitCode, timedOut, orphaned).finishedMs.Some?
  {
    HarvestKeeps(t.(stdout := if t.stdoutPipe.None? then t.stdout + seen.stdoutRest else t.stdout,
                    stderr := if t.stderrPipe.None? then t.stderr + seen.stderrRest else t.stderr,
                    exitCode := exitCode, finishedMs := Some(seen.wallMs), timedOut := timedOut, orphaned := orphaned),
                 seen, stream);
  }

  lemma PollAppends(t: Task, seen: Sight, stream: Stream)
    ensures SoFar(Polled(t, seen), stream) == SoFar(t, stream) + Brought(t, Poll(seen), stream)
  {
    if t.finishedMs.Some? {
      HarvestKeeps(t, seen, stream);
    } else if seen.child.Exited? {
      FinishAppends(t, seen, seen.child.code, t.timedOut, t.orphaned, stream);
    } else if seen.child.Running? {
      var idleExpired := t.idleDeadline.Some? && seen.instant >= t.idleDeadline.value;
      var orphaned := idleExpired && seen.instant < t.deadline;
      FinishAppends(t, seen, Some(-1), !orphaned, orphaned, stream);
    }
  }

  lemma StepAppends(t: Task, op: TaskOp, stream: Stream)
    ensures SoFar(TaskStep(t, op), stream) == SoFar(t, stream) + Brought(t, op, stream)
  {
    if op.Poll? { PollAppends(t, op.seen, stream); }
  }

  // Nothing a task wrote is lost or reordered, whatever polls and drains happen.
  lemma {:induction false} SoFarIsWritten(b: Beginning, ops: seq<TaskOp>, n: nat, stream: Stream)
    requires n <= |ops|
    ensures SoFar(TaskAfter(FirstEntry(b), ops, n), stream) == WrittenBy(b, ops, n, stream)
  {
    if n > 0 {
      SoFarIsWritten(b, ops, n - 1, stream);
      StepAppends(TaskAfter(FirstEntry(b), ops, n - 1), ops[n - 1], stream);
    }
  }

  // The reply shows the last `most` bytes of each stream.
  ghost predicate ShowsStreams(stdout: seq<Byte>, stderr: seq<Byte>, reply: Reply, most: nat) {
    && ShowsLast(stdout, reply.stdout, reply.stdoutOmitted, most)
    && ShowsLast(stderr, reply.stderr, reply.stderrOmitted, most)
  }

  function LiveReply(id: Name, t: Task, maxBytes: nat): Reply {
    Reply(id, Tail(StdoutSoFar(t), maxBytes), Tail(StderrSoFar(t), maxBytes),
          Minus(|StdoutSoFar(t)|, maxBytes), Minus(|StderrSoFar(t)|, maxBytes),
          t.finishedMs.None?, t.exitCode, t.timedOut, t.orphaned)
  }

  function RecordOf(id: Name, t: Task): Completed
    requires t.finishedMs.Some?
  {
    Completed(1, id, t.lang, t.startedMs, t.finishedMs.value, t.exitCode, t.timedOut,
              Tail(t.stdout, TAIL_BYTES), Tail(t.stderr, TAIL_BYTES),
              Minus(|t.stdout|, TAIL_BYTES), Minus(|t.stderr|, TAIL_BYTES))
  }

  // A host never refuses the record of a task it issued and finished itself.
  lemma OwnRecordIsSound(id: Name, t: Task)
    requires SafeId(id) && t.finishedMs.Some? && t.startedMs <= t.finishedMs.value
    requires |t.stdout| < 0x1_0000_0000_0000_0000 && |t.stderr| < 0x1_0000_0000_0000_0000
    ensures SoundRecord(RecordOf(id, t), id) && ValidRecord(RecordOf(id, t), id)
  {
    RecordsAreSound(RecordOf(id, t), id);
  }

  lemma LiveReplyShows(id: Name, t: Task, maxBytes: nat)
    ensures ShowsStreams(StdoutSoFar(t), StderrSoFar(t), LiveReply(id, t, maxBytes), maxBytes)
  {
    TailShowsLast(StdoutSoFar(t), maxBytes);
    TailShowsLast(StderrSoFar(t), maxBytes);
  }

  // Main result: at any moment of a task's life its reply shows the last bytes of
  // everything it wrote and says how many come before them.
  lemma ReplyShowsWritten(b: Beginning, ops: seq<TaskOp>, n: nat, id: Name, maxBytes: nat)
    requires n <= |ops|
    ensures ShowsStreams(WrittenBy(b, ops, n, Stdout), WrittenBy(b, ops, n, Stderr),
                         LiveReply(id, TaskAfter(FirstEntry(b), ops, n), maxBytes), maxBytes)
  {
    SoFarIsWritten(b, ops, n, Stdout);
    SoFarIsWritten(b, ops, n, Stderr);
    LiveReplyShows(id, TaskAfter(FirstEntry(b), ops, n), maxBytes);
  }

  lemma TailOfTail(bytes: seq<Byte>, kept: nat, maxBytes: nat)
    ensures Tail(Tail(bytes, kept), maxBytes) == Tail(bytes, maxBytes) <==> maxBytes <= kept || |bytes| <= kept
    ensures maxBytes <= kept || |bytes| <= kept ==>
      Minus(|bytes|, kept) + Minus(|Tail(bytes, kept)|, maxBytes) == Minus(|bytes|, maxBytes)
  {
    if maxBytes <= kept || |bytes| <= kept {
      assert Tail(Tail(bytes, kept), maxBytes) == Tail(bytes, maxBytes);
    } else {
      assert |Tail(Tail(bytes, kept), maxBytes)| != |Tail(bytes, maxBytes)|;
    }
  }

  // Main result: the stored result answers as the live task did exactly when no
  // more is asked for than was kept, or the whole output was kept.
  lemma HandoffKeepsReply(id: Name, t: Task, maxBytes: nat)
    requires !Blocking(t) && NeverOrphaned(t)
    ensures StoredReply(RecordOf(id, t), maxBytes) == LiveReply(id, t, maxBytes) <==>
      maxBytes <= TAIL_BYTES || (|t.stdout| <= TAIL_BYTES && |t.stderr| <= TAIL_BYTES)
  {
    TailOfTail(t.stdout, TAIL_BYTES, maxBytes);
    TailOfTail(t.stderr, TAIL_BYTES, maxBytes);
  }

  // ---- The registry ----

  datatype HandoffError = RegistryTooLarge | StoreFailed(error: StoreError)

  datatype OutputError = IdRequired | StoreUnavailable(error: StoreError)

  // Settled tasks are dropped 30 minutes after they finished.
  predicate ExpiredTask(t: Task, now: nat): (expired: bool)
    ensures expired <==> !Blocking(t) && t.finishedMs.value + 1800000 <= now
  {
    t.finishedMs.Some? && !DrainsPending(t) && Minus(now, t.finishedMs.value) >= RETENTION_MS
  }

  // The store answers for `id` as the live task does, up to the kept tail.
  ghost predicate AnswersAlike(files: Files, id: Name, t: Task) {
    forall maxBytes: nat, later: nat, stuck: bool ::
      maxBytes <= TAIL_BYTES && t.finishedMs.Some? && Minus(later, t.finishedMs.value) < RETENTION_MS ==>
      StoredOutput(files, id, maxBytes, later, stuck) == Ok(Some(LiveReply(id, t, maxBytes)))
  }

  lemma HeldAnswersAlike(files: Files, id: Name, t: Task)
    requires !Blocking(t) && NeverOrphaned(t) && Holds(files, RecordOf(id, t))
    ensures AnswersAlike(files, id, t)
  {
    forall maxBytes: nat, later: nat, stuck: bool |
      maxBytes <= TAIL_BYTES && Minus(later, t.finishedMs.value) < RETENTION_MS
      ensures StoredOutput(files, id, maxBytes, later, stuck) == Ok(Some(LiveReply(id, t, maxBytes)))
    {
      HandoffKeepsReply(id, t, maxBytes);
    }
  }

  // Main result: through any later run of saves and answers, until its retention
  // time is over, the store answers for a handed-off task as its registry did.
  lemma AnswersSurviveHandoff(stores: seq<Files>, times: seq<nat>, n: nat, id: Name, t: Task, maxBytes: nat,
                              later: nat, stuck: bool)
    requires |stores| == |times| + 1 && n <= |times|
    requires forall i :: 0 <= i < |times| ==> Keeps(stores[i], stores[i + 1], times[i]) && times[i] <= later
    requires !Blocking(t) && NeverOrphaned(t) && Holds(stores[0], RecordOf(id, t))
    requires maxBytes <= TAIL_BYTES && Minus(later, t.finishedMs.value) < RETENTION_MS
    ensures StoredOutput(stores[n], id, maxBytes, later, stuck) == Ok(Some(LiveReply(id, t, maxBytes)))
  {
    KeptUntilExpiry(stores, times, n, TaskFile(id), later);
    HeldAnswersAlike(stores[n], id, t);
  }

  lemma ShowsLastOfLast(all: seq<Byte>, kept: seq<Byte>, omitted: nat, limit: nat,
                        shown: seq<Byte>, more: nat, most: nat)
    requires ShowsLast(all, kept, omitted, limit) && IsEndOf(all, shown, more)
    requires |shown| == if |kept| < most then |kept| else most
    ensures ShowsLast(all, shown, more, if most < limit then most else limit)
  {
  }

  // Main result: through any later run of saves and answers, until its retention
  // time is over, the store shows the last bytes of everything the handed-off task
  // wrote: as many as asked for, up to the 65536 that are kept.
  lemma StoredShowsWritten(stores: seq<Files>, times: seq<nat>, b: Beginning, ops: seq<TaskOp>, n: nat, id: Name,
                           maxBytes: nat, later: nat, stuck: bool)
    requires |stores| == |times| + 1 && n <= |ops|
    requires forall i :: 0 <= i < |times| ==> Keeps(stores[i], stores[i + 1], times[i]) && times[i] <= later
    requires var t := TaskAfter(FirstEntry(b), ops, n);
      !Blocking(t) && Holds(stores[0], RecordOf(id, t)) && Minus(later, t.finishedMs.value) < RETENTION_MS
    ensures var r := StoredOutput(stores[|times|], id, maxBytes, later, stuck);
      && r.Ok? && r.value.Some?
      && ShowsStreams(WrittenBy(b, ops, n, Stdout), WrittenBy(b, ops, n, Stderr), r.value.value,
                      if maxBytes < 65536 then maxBytes else 65536)
  {
    var t := TaskAfter(FirstEntry(b), ops, n);
    var record := RecordOf(id, t);
    KeptUntilExpiry(stores, times, |times|, TaskFile(id), later);
    var reply := StoredReply(record, maxBytes);
    assert StoredOutput(stores[|times|], id, maxBytes, later, stuck) == Ok(Some(reply));
    StoredReplyShows(record, maxBytes);
    SoFarIsWritten(b, ops, n, Stdout);
    SoFarIsWritten(b, ops, n, Stderr);
    TailShowsLast(t.stdout, TAIL_BYTES);
    TailShowsLast(t.stderr, TAIL_BYTES);
    ShowsLastOfLast(t.stdout, record.stdout, record.stdoutOmitted, TAIL_BYTES,
                    reply.stdout, reply.stdoutOmitted, maxBytes);
    ShowsLastOfLast(t.stderr, record.stderr, record.stderrOmitted, TAIL_BYTES,
                    reply.stderr, reply.stderrOmitted, maxBytes);
  }

  // The records of all tasks, in the map's arbitrary order.
  method Records(tasks: map<Name, Task>) returns (records: seq<Completed>)
    requires forall id :: id in tasks ==> !Blocking(tasks[id])
    ensures forall j :: 0 <= j < |records| ==> LastOfItsId(records, j)
    ensures forall id :: id in tasks && !Blocking(tasks[id]) ==> RecordOf(id, tasks[id]) in records
  {
    var left := tasks.Keys;
    records := [];
    while left != {}
      invariant left <= tasks.Keys
      invariant forall i, j :: 0 <= i < j < |records| ==> records[i].id != records[j].id
      invariant forall j :: 0 <= j < |records| ==> records[j].id !in left
      invariant forall id :: id in tasks && id !in left ==> RecordOf(id, tasks[id]) in records
    {
      var id :| id in left;
      records, left := records + [RecordOf(id, tasks[id])], left - {id};
    }
  }

  class TaskRegistry {
    var tasks: map<Name, Task>
    const store: Store

    ghost predicate Valid()
      reads this
    {
      forall id :: id in tasks ==> NeverOrphaned(tasks[id])
    }

    constructor (store: Store)
      ensures Valid() && tasks == map[] && this.store == store
    {
      this.tasks, this.store := map[], store;
    }

    method Register(id: Name, b: Beginning) returns (ok: bool)
      requires Valid()
      modifies this`tasks
      ensures Valid() && ok == (id !in old(tasks))
      ensures tasks == if ok then old(tasks)[id := FirstEntry(b)] else old(tasks)
    {
      ok := id !in tasks;
      if ok { tasks := tasks[id := FirstEntry(b)]; }
    }

    // One round of the reaper over the whole registry.
    method PollAll(seen: Name -> Sight)
      requires Valid()
      modifies this`tasks
      ensures Valid() && tasks == map id | id in old(tasks) :: Polled(old(tasks)[id], seen(id))
    {
      var left := tasks.Keys;
      while left != {}
        invariant left <= tasks.Keys == old(tasks).Keys
        invariant forall id :: id in tasks ==>
          tasks[id] == if id in left then old(tasks)[id] else Polled(old(tasks)[id], seen(id))
      {
        var id :| id in left;
        tasks, left := tasks[id := Polled(tasks[id], seen(id))], left - {id};
      }
      forall id | id in tasks ensures NeverOrphaned(tasks[id]) {
        StepIsNeverOrphaned(old(tasks)[id], Poll(seen(id)));
      }
    }

    method ExpireCompleted(now: nat)
      requires Valid()
      modifies this`tasks
      ensures Valid() && tasks == map id | id in old(tasks) && !ExpiredTask(old(tasks)[id], now) :: old(tasks)[id]
    {
      tasks := map id | id in tasks && !ExpiredTask(tasks[id], now) :: tasks[id];
    }

    // A handoff is granted only if no execution is under way and every task is
    // finished and drained; then the store answers for each of them.
    method PrepareHandoff(busy: bool, seen: Name -> Sight, now: nat, savedAt: nat, slowAt: nat,
                          stuck: set<FileName>, failAt: Option<nat>)
      returns (r: Result<bool, HandoffError>)
      requires Valid()
      modifies this`tasks, store`files
      ensures Valid() && Keeps(old(store.files), store.files, savedAt)
      ensures r != Ok(true) || !busy
      ensures r == Ok(true) ==> forall id :: id in tasks ==>
        !Blocking(tasks[id]) && Holds(store.files, RecordOf(id, tasks[id])) && AnswersAlike(store.files, id, tasks[id])
      ensures r == Ok(true) ==>
        forall id :: id in old(tasks) && !ExpiredTask(Polled(old(tasks)[id], seen(id)), now) ==> id in tasks
    {
      if busy {
        return Ok(false);
      }
      PollAll(seen);
      ExpireCompleted(now);
      if exists id :: id in tasks && Blocking(tasks[id]) {
        return Ok(false);
      }
      if |tasks| > MAX_RECORDS {
        return Err(RegistryTooLarge);
      }
      var records := Records(tasks);
      var saved := store.Save(records, savedAt, slowAt, stuck, failAt);
      if saved.Err? {
        return Err(StoreFailed(saved.error));
      }
      forall id | id in tasks
        ensures Holds(store.files, RecordOf(id, tasks[id])) && AnswersAlike(store.files, id, tasks[id])
      {
        var j :| 0 <= j < |records| && records[j] == RecordOf(id, tasks[id]);
        assert LastOfItsId(records, j);
        HeldAnswersAlike(store.files, id, tasks[id]);
      }
      r := Ok(true);
    }

    // A task of this registry answers for itself; any other id is the store's.
    method Output(id: Name, maxBytes: nat, touchedAt: nat, seen: Sight, now: nat, stuck: bool)
      returns (r: Result<Option<Reply>, OutputError>)
      requires Valid()
      modifies this`tasks, store`files
      ensures Valid()
      ensures id.text == "" ==> r == Err(IdRequired) && tasks == old(tasks) && store.files == old(store.files)
      ensures id.text != "" && id in old(tasks) ==>
        var t := Polled(Touched(old(tasks)[id], touchedAt), seen);
        && tasks == old(tasks)[id := t] && r == Ok(Some(LiveReply(id, t, maxBytes)))
        && ShowsStreams(StdoutSoFar(t), StderrSoFar(t), r.value.value, maxBytes)
        && store.files == old(store.files)
      ensures id.text != "" && id !in old(tasks) ==>
        && tasks == old(tasks) && Keeps(old(store.files), store.files, now)
        && r == match StoredOutput(old(store.files), id, maxBytes, now, stuck)
                case Ok(reply) => Ok(reply)
                case Err(error) => Err(StoreUnavailable(error))
      ensures id !in old(tasks) && r.Ok? && r.value.Some? ==> Recorded(old(store.files), id, r.value.value, maxBytes)
    {
      if id.text == "" {
        return Err(IdRequired);
      }
      if id !in tasks {
        var stored := store.Output(id, maxBytes, now, stuck);
        return match stored case Ok(reply) => Ok(reply) case Err(error) => Err(StoreUnavailable(error));
      }
      StepIsNeverOrphaned(tasks[id], Touch(touchedAt));
      StepIsNeverOrphaned(Touched(tasks[id], touchedAt), Poll(seen));
      var t := Polled(Touched(tasks[id], touchedAt), seen);
      tasks := tasks[id := t];
      LiveReplyShows(id, t, maxBytes);
      r := Ok(Some(LiveReply(id, t, maxBytes)));
    }
  }
}
