// The directory of completed task results that one host leaves for the next: written once, never overwritten by
// different content, removed only after the retention time. Proved: a save that succeeds leaves every record readable
// and the store within its bounds, none loses or changes what has not expired, and answers show the end of the output.
module TaskResults {
  import opened Sums
  import opened Wrappers

  const RETENTION_MS := 30 * 60 * 1000
  const TAIL_BYTES := 65536
  const MAX_RECORD_BYTES := 1024 * 1024
  const MAX_STORE_BYTES := 64 * 1024 * 1024
  const MAX_RECORDS := 512
  const MAX_SCAN_ENTRIES := 1024
  const U64_MAX := 0xFFFF_FFFF_FFFF_FFFF

  type Byte = x: int | 0 <= x < 256

  // ---- Records ----

  datatype Completed = Completed(
    schema: nat, id: Name, lang: Name, startedMs: nat, finishedMs: nat, exitCode: Option<int>, timedOut: bool,
    stdout: seq<Byte>, stderr: seq<Byte>, stdoutOmitted: nat, stderrOmitted: nat)

  predicate IdByte(c: char) {
    '0' <= c <= '9' || 'a' <= c <= 'f' || 'A' <= c <= 'F' || c == '-'
  }

  predicate ValidId(id: Name) {
    && 5 < |id.text| <= 128 && id.text[..5] == "task-"
    && forall i :: 5 <= i < |id.text| ==> IdByte(id.text[i])
  }

  predicate ValidRecord(r: Completed, id: Name) {
    && r.schema == 1 && r.id == id && ValidId(id) && r.startedMs <= r.finishedMs
    && |r.stdout| <= TAIL_BYTES && |r.stderr| <= TAIL_BYTES
    && r.stdoutOmitted <= U64_MAX - TAIL_BYTES && r.stderrOmitted <= U64_MAX - TAIL_BYTES
  }

  // A host names its tasks by its process id, its start and a counter, all in
  // hexadecimal; such a name is a safe file name.
  lemma IssuedIdsAreValid(pid: string, startedNs: string, sequence: string)
    requires 0 < |pid| <= 8 && 0 < |startedNs| <= 32 && 0 < |sequence| <= 16
    requires forall c :: c in pid || c in startedNs || c in sequence ==> IdByte(c)
    ensures ValidId(Name("task-" + pid + "-" + startedNs + "-" + sequence))
  {
    var tail := pid + "-" + startedNs + "-" + sequence;
    var text := "task-" + pid + "-" + startedNs + "-" + sequence;
    assert text == "task-" + tail;
    assert forall c :: c in tail ==> IdByte(c);
    assert forall i :: 5 <= i < |text| ==> text[i] == tail[i - 5];
  }

  // ---- Files ----

  // What a file's text parses as.
  datatype Content = Json(record: Completed) | Stamp(finishedMs: nat) | Garbage

  datatype File = File(content: Content, length: nat, isPrivate: bool, regular: bool)

  // `<id>.json` for a valid id, or any other name.
  datatype FileName = TaskFile(id: Name) | Other(name: Name)

  type Files = map<FileName, File>

  datatype StoreError = ScanBound | RecordBound | ByteBound | BadId | BadRecord | Unreadable | Different | TooLong |
    WriteFailed | RemoveFailed

  predicate Readable(f: File) {
    f.regular && f.length <= MAX_RECORD_BYTES
  }

  function FinishedStamp(c: Content): Option<nat> {
    match c
    case Json(record) => Some(record.finishedMs)
    case Stamp(finishedMs) => Some(finishedMs)
    case Garbage => None
  }

  // A file whose retention time is over; one that cannot be read is kept.
  predicate Expired(f: File, now: nat) {
    Readable(f) && FinishedStamp(f.content).Some? && Minus(now, FinishedStamp(f.content).value) >= RETENTION_MS
  }

  predicate Prunable(name: FileName, f: File, now: nat) {
    name.TaskFile? && Expired(f, now)
  }

  function ReadRecord(files: Files, id: Name): Result<Option<Completed>, StoreError> {
    if TaskFile(id) !in files then Ok(None)
    else
      var f := files[TaskFile(id)];
      if !Readable(f) || !f.isPrivate || !f.content.Json? then Err(Unreadable)
      else if !ValidRecord(f.content.record, id) then Err(BadRecord)
      else Ok(Some(f.content.record))
  }

  // The file a record is written to, given the length of its text.
  function FileOf(r: Completed, json: Completed -> nat): File {
    File(Json(r), json(r), true, true)
  }

  function Lengths(files: Files): map<FileName, int> {
    map n | n in files :: files[n].length
  }

  // Everything that has not expired is still there, unchanged.
  ghost predicate Keeps(before: Files, after: Files, now: nat) {
    forall n :: n in before && !Prunable(n, before[n], now) ==> n in after && after[n] == before[n]
  }

  // ---- Replies ----

  datatype Reply = Reply(
    id: Name, stdout: seq<Byte>, stderr: seq<Byte>, stdoutOmitted: nat, stderrOmitted: nat,
    running: bool, exitCode: Option<int>, timedOut: bool, orphaned: bool)

  function Tail(bytes: seq<Byte>, maxBytes: nat): seq<Byte> {
    bytes[Minus(|bytes|, maxBytes)..]
  }

  function StoredReply(r: Completed, maxBytes: nat): Reply {
    Reply(r.id, Tail(r.stdout, maxBytes), Tail(r.stderr, maxBytes),
          r.stdoutOmitted + Minus(|r.stdout|, maxBytes), r.stderrOmitted + Minus(|r.stderr|, maxBytes),
          false, r.exitCode, r.timedOut, false)
  }

  // `shown` is the end of `all`; the `omitted` bytes before it are left out.
  ghost predicate IsEndOf(all: seq<Byte>, shown: seq<Byte>, omitted: nat) {
    omitted <= |all| && shown == all[omitted..]
  }

  // At most `most` bytes, and all there are if there are no more.
  ghost predicate ShowsLast(all: seq<Byte>, shown: seq<Byte>, omitted: nat, most: nat) {
    IsEndOf(all, shown, omitted) && |shown| <= most && (omitted > 0 ==> |shown| == most)
  }

  // What is the end of a kept end is the end of the whole.
  lemma EndOfEnd(all: seq<Byte>, kept: seq<Byte>, omitted: nat, shown: seq<Byte>, more: nat)
    requires IsEndOf(all, kept, omitted) && IsEndOf(kept, shown, more)
    ensures IsEndOf(all, shown, omitted + more)
  {
  }

  lemma TailShowsLast(bytes: seq<Byte>, maxBytes: nat)
    ensures ShowsLast(bytes, Tail(bytes, maxBytes), Minus(|bytes|, maxBytes), maxBytes)
  {
  }

  // The reply shows the last bytes of any output whose end was recorded.
  ghost predicate ShowsRecorded(r: Completed, reply: Reply, maxBytes: nat) {
    && (forall all :: IsEndOf(all, r.stdout, r.stdoutOmitted) ==> IsEndOf(all, reply.stdout, reply.stdoutOmitted))
    && (forall all :: IsEndOf(all, r.stderr, r.stderrOmitted) ==> IsEndOf(all, reply.stderr, reply.stderrOmitted))
    && |reply.stdout| == (if |r.stdout| < maxBytes then |r.stdout| else maxBytes)
    && |reply.stderr| == (if |r.stderr| < maxBytes then |r.stderr| else maxBytes)
    && reply.id == r.id && reply.exitCode == r.exitCode && reply.timedOut == r.timedOut
    && !reply.running && !reply.orphaned
  }

  ghost predicate Recorded(files: Files, id: Name, reply: Reply, maxBytes: nat) {
    && TaskFile(id) in files && files[TaskFile(id)].content.Json?
    && ShowsRecorded(files[TaskFile(id)].content.record, reply, maxBytes)
  }

  lemma StoredReplyShows(r: Completed, maxBytes: nat)
    ensures ShowsRecorded(r, StoredReply(r, maxBytes), maxBytes)
  {
    var reply := StoredReply(r, maxBytes);
    TailShowsLast(r.stdout, maxBytes);
    TailShowsLast(r.stderr, maxBytes);
    forall all | IsEndOf(all, r.stdout, r.stdoutOmitted) ensures IsEndOf(all, reply.stdout, reply.stdoutOmitted) {
      EndOfEnd(all, r.stdout, r.stdoutOmitted, reply.stdout, Minus(|r.stdout|, maxBytes));
    }
    forall all | IsEndOf(all, r.stderr, r.stderrOmitted) ensures IsEndOf(all, reply.stderr, reply.stderrOmitted) {
      EndOfEnd(all, r.stderr, r.stderrOmitted, reply.stderr, Minus(|r.stderr|, maxBytes));
    }
  }

  // `stuck` tells that the expired file cannot be removed.
  function StoredOutput(files: Files, id: Name, maxBytes: nat, now: nat, stuck: bool):
      Result<Option<Reply>, StoreError>
  {
    if !ValidId(id) then Err(BadId)
    else if TaskFile(id) !in files then Ok(None)
    else if !Readable(files[TaskFile(id)]) || files[TaskFile(id)].content.Garbage? then Err(Unreadable)
    else if Expired(files[TaskFile(id)], now) then (if stuck then Err(RemoveFailed) else Ok(None))
    else
      match ReadRecord(files, id)
      case Err(error) => Err(error)
      case Ok(None) => Ok(None)
      case Ok(Some(record)) => Ok(Some(StoredReply(record, maxBytes)))
  }

  // ---- What a save writes ----

  // The first n records that are not stored yet, in order.
  function Pending(files: Files, records: seq<Completed>, n: nat): seq<Completed>
    requires n <= |records|
  {
    if n == 0 then []
    else
      var before := Pending(files, records, n - 1);
      if TaskFile(records[n - 1].id) in files then before else before + [records[n - 1]]
  }

  function Written(files: Files, writes: seq<Completed>, k: nat, json: Completed -> nat): Files
    requires k <= |writes|
  {
    if k == 0 then files
    else Written(files, writes, k - 1, json)[TaskFile(writes[k - 1].id) := FileOf(writes[k - 1], json)]
  }

  function Saved(files: Files, records: seq<Completed>, n: nat, json: Completed -> nat): Files
    requires n <= |records|
  {
    Written(files, Pending(files, records, n), |Pending(files, records, n)|, json)
  }

  lemma {:induction false} WrittenAgrees(files: Files, a: seq<Completed>, b: seq<Completed>, k: nat,
      json: Completed -> nat)
    requires k <= |a| && k <= |b|
    requires forall i :: 0 <= i < k ==> a[i] == b[i]
    ensures Written(files, a, k, json) == Written(files, b, k, json)
  {
    if k > 0 { WrittenAgrees(files, a, b, k - 1, json); }
  }

  lemma SavedNext(files: Files, records: seq<Completed>, n: nat, json: Completed -> nat)
    requires n < |records|
    ensures Saved(files, records, n + 1, json) ==
      if TaskFile(records[n].id) in files then Saved(files, records, n, json)
      else Saved(files, records, n, json)[TaskFile(records[n].id) := FileOf(records[n], json)]
  {
    var before := Pending(files, records, n);
    if TaskFile(records[n].id) !in files {
      WrittenAgrees(files, before, before + [records[n]], |before|, json);
    }
  }

  lemma {:induction false} PendingIsAbsent(files: Files, records: seq<Completed>, n: nat)
    requires n <= |records|
    ensures forall k :: 0 <= k < |Pending(files, records, n)| ==> TaskFile(Pending(files, records, n)[k].id) !in files
  {
    if n > 0 { PendingIsAbsent(files, records, n - 1); }
  }

  lemma {:induction false} WritesSpare(files: Files, writes: seq<Completed>, k: nat, json: Completed -> nat)
    requires k <= |writes|
    requires forall i :: 0 <= i < |writes| ==> TaskFile(writes[i].id) !in files
    ensures forall n :: n in files ==>
      n in Written(files, writes, k, json) && Written(files, writes, k, json)[n] == files[n]
  {
    if k > 0 { WritesSpare(files, writes, k - 1, json); }
  }

  // A record whose id was free is there after the save, unless a later record of
  // the same save has its id.
  lemma {:induction false} LastRecordStays(files: Files, records: seq<Completed>, n: nat, j: nat,
      json: Completed -> nat)
    requires j < n <= |records| && TaskFile(records[j].id) !in files
    requires forall i :: j < i < n ==> records[i].id != records[j].id
    ensures TaskFile(records[j].id) in Saved(files, records, n, json)
    ensures Saved(files, records, n, json)[TaskFile(records[j].id)] == FileOf(records[j], json)
  {
    SavedNext(files, records, n - 1, json);
    if j < n - 1 { LastRecordStays(files, records, n - 1, j, json); }
  }

  lemma LengthsAfterWrite(files: Files, n: FileName, f: File)
    ensures Lengths(files[n := f]) == Lengths(files)[n := f.length]
    ensures MapSum(Lengths(files[n := f])) <= MapSum(Lengths(files)) + f.length
  {
    assert Lengths(files[n := f]) == Lengths(files)[n := f.length];
    MapSumUpdate(Lengths(files), n, f.length);
  }

  lemma LengthsSize(files: Files)
    ensures |Lengths(files)| == |files|
  {
    assert Lengths(files).Keys == files.Keys;
  }

  // ---- The scan of the directory ----

  // What the scan removes: expired results, but for those it fails to remove.
  predicate Removed(name: FileName, f: File, now: nat, stuck: set<FileName>) {
    Prunable(name, f, now) && name !in stuck
  }

  // `before` with the entries outside `left` looked at: the removed ones gone, the
  // lengths of the others in `sizes`.
  ghost predicate Scanned(before: Files, files: Files, left: set<FileName>, sizes: map<FileName, int>, now: nat,
                          stuck: set<FileName>)
  {
    && left <= files.Keys && sizes.Keys == files.Keys - left
    && (forall n :: n in files ==>
      n in before && files[n] == before[n] && (n in left || !Removed(n, before[n], now, stuck)))
    && (forall n :: n in before && !Removed(n, before[n], now, stuck) ==> n in files)
    && (forall n :: n in sizes ==> sizes[n] == files[n].length)
  }

  lemma ScanDrops(before: Files, files: Files, left: set<FileName>, sizes: map<FileName, int>, now: nat,
                  stuck: set<FileName>, name: FileName)
    requires Scanned(before, files, left, sizes, now, stuck) && name in left && Removed(name, files[name], now, stuck)
    ensures Scanned(before, files - {name}, left - {name}, sizes, now, stuck)
  {
  }

  lemma ScanCounts(before: Files, files: Files, left: set<FileName>, sizes: map<FileName, int>, now: nat,
                   stuck: set<FileName>, name: FileName)
    requires Scanned(before, files, left, sizes, now, stuck) && name in left && !Removed(name, files[name], now, stuck)
    ensures Scanned(before, files, left - {name}, sizes[name := files[name].length], now, stuck)
    ensures MapSum(sizes[name := files[name].length]) == MapSum(sizes) + files[name].length
  {
    MapSumUpdate(sizes, name, files[name].length);
  }

  lemma ScanEnds(before: Files, files: Files, sizes: map<FileName, int>, now: nat, stuck: set<FileName>)
    requires Scanned(before, files, {}, sizes, now, stuck)
    ensures sizes == Lengths(files) && |sizes| == |files|
  {
    assert sizes == Lengths(files);
    LengthsSize(files);
  }

  // ---- The store ----

  ghost predicate WithinBounds(files: Files) {
    |files| <= MAX_RECORDS && MapSum(Lengths(files)) <= MAX_STORE_BYTES
  }

  // The record can be read back under its id.
  predicate Holds(files: Files, r: Completed) {
    ReadRecord(files, r.id) == Ok(Some(r))
  }

  // What a save demands of one record: already stored as it is, or new and short
  // enough.
  predicate Accepted(files: Files, r: Completed, json: Completed -> nat) {
    && ValidRecord(r, r.id)
    && (if TaskFile(r.id) in files then Holds(files, r) else json(r) <= MAX_RECORD_BYTES)
  }

  // The bytes the first n records add to the store.
  function Demand(files: Files, records: seq<Completed>, n: nat, json: Completed -> nat): nat
    requires n <= |records|
  {
    if n == 0 then 0 else
      Demand(files, records, n - 1, json) +
      (if TaskFile(records[n - 1].id) in files then 0 else json(records[n - 1]))
  }

  ghost predicate Fits(files: Files, records: seq<Completed>, n: nat, json: Completed -> nat)
    requires n <= |records|
  {
    && |Saved(files, records, n, json)| <= MAX_RECORDS
    && MapSum(Lengths(files)) + Demand(files, records, n, json) <= MAX_STORE_BYTES
  }

  lemma {:induction false} FewerRecordsFit(files: Files, records: seq<Completed>, n: nat, m: nat,
      json: Completed -> nat)
    requires n <= m <= |records| && Fits(files, records, m, json)
    ensures Fits(files, records, n, json)
  {
    if n < m {
      SavedNext(files, records, m - 1, json);
      var before, after := Saved(files, records, m - 1, json), Saved(files, records, m, json);
      SubsetIsSmaller(before.Keys, after.Keys);
      FewerRecordsFit(files, records, n, m - 1, json);
    }
  }

  // What the loop over the records keeps: the tables it will write from.
  ghost predicate Planned(files: Files, records: seq<Completed>, n: nat, sizes: map<FileName, int>, total: int,
      json: Completed -> nat)
    requires n <= |records|
  {
    && sizes == Lengths(Saved(files, records, n, json))
    && total == MapSum(Lengths(files)) + Demand(files, records, n, json)
    && MapSum(sizes) <= total
    && Fits(files, records, n, json)
    && forall j :: 0 <= j < n ==> Accepted(files, records[j], json)
  }

  lemma PlanStarts(files: Files, records: seq<Completed>, sizes: map<FileName, int>, total: int, json: Completed -> nat)
    requires sizes == Lengths(files) && total == MapSum(sizes) && WithinBounds(files)
    ensures Planned(files, records, 0, sizes, total, json)
  {
  }

  lemma PlanSkips(files: Files, records: seq<Completed>, n: nat, sizes: map<FileName, int>, total: int,
      json: Completed -> nat)
    requires n < |records| && Planned(files, records, n, sizes, total, json)
    requires TaskFile(records[n].id) in files && Accepted(files, records[n], json)
    ensures Planned(files, records, n + 1, sizes, total, json)
  {
    SavedNext(files, records, n, json);
  }

  // The loop's own check of room is the check of the store's bounds.
  lemma PlanRoom(files: Files, records: seq<Completed>, n: nat, sizes: map<FileName, int>, total: int,
      json: Completed -> nat)
    requires n < |records| && Planned(files, records, n, sizes, total, json) && TaskFile(records[n].id) !in files
    ensures Fits(files, records, n + 1, json) <==>
      |sizes[TaskFile(records[n].id) := json(records[n])]| <= MAX_RECORDS && total + json(records[n]) <= MAX_STORE_BYTES
  {
    assert |sizes[TaskFile(records[n].id) := json(records[n])]| == |Saved(files, records, n + 1, json)| by {
      SavedNext(files, records, n, json);
      LengthsAfterWrite(Saved(files, records, n, json), TaskFile(records[n].id), FileOf(records[n], json));
      LengthsSize(Saved(files, records, n + 1, json));
    }
    assert Demand(files, records, n + 1, json) == Demand(files, records, n, json) + json(records[n]);
  }

  lemma PlanAdds(files: Files, records: seq<Completed>, n: nat, sizes: map<FileName, int>, total: int,
      json: Completed -> nat)
    requires n < |records| && Planned(files, records, n, sizes, total, json) && TaskFile(records[n].id) !in files
    requires Accepted(files, records[n], json) && Fits(files, records, n + 1, json)
    ensures var size := json(records[n]);
      Planned(files, records, n + 1, sizes[TaskFile(records[n].id) := size], total + size, json)
  {
    SavedNext(files, records, n, json);
    LengthsAfterWrite(Saved(files, records, n, json), TaskFile(records[n].id), FileOf(records[n], json));
  }

  lemma Overfull(files: Files, records: seq<Completed>, n: nat, json: Completed -> nat)
    requires n <= |records| && !Fits(files, records, n, json)
    ensures !Fits(files, records, |records|, json)
  {
    if Fits(files, records, |records|, json) { FewerRecordsFit(files, records, n, |records|, json); }
  }

  predicate LastOfItsId(records: seq<Completed>, j: nat) {
    j < |records| && forall i :: j < i < |records| ==> records[i].id != records[j].id
  }

  lemma SavedHolds(files: Files, records: seq<Completed>, json: Completed -> nat)
    requires forall j :: 0 <= j < |records| ==> Accepted(files, records[j], json)
    ensures forall j :: 0 <= j < |records| && LastOfItsId(records, j) ==>
      Holds(Saved(files, records, |records|, json), records[j])
  {
    PendingIsAbsent(files, records, |records|);
    WritesSpare(files, Pending(files, records, |records|), |Pending(files, records, |records|)|, json);
    forall j | 0 <= j < |records| && LastOfItsId(records, j)
      ensures Holds(Saved(files, records, |records|, json), records[j])
    {
      if TaskFile(records[j].id) !in files { LastRecordStays(files, records, |records|, j, json); }
    }
  }

  // ---- What is accepted, kept and answered, in numbers ----

  // `task-` and up to 123 hexadecimal digits and hyphens.
  ghost predicate SafeId(id: Name) {
    && 6 <= |id.text| <= 128 && id.text[0..5] == "task-"
    && forall i :: 5 <= i < |id.text| ==>
      var c := id.text[i] as int; 48 <= c <= 57 || 65 <= c <= 70 || 97 <= c <= 102 || c == 45
  }

  lemma IdsAreSafe(id: Name)
    ensures ValidId(id) <==> SafeId(id)
  {
    assert '0' as int == 48 && 'A' as int == 65 && 'a' as int == 97 && '-' as int == 45;
  }

  // A record of this schema and id whose times are in order, whose two ends are of
  // at most 64 KiB, and whose omitted counts cannot overflow 64 bits in a reply.
  ghost predicate SoundRecord(r: Completed, id: Name) {
    && r.schema == 1 && r.id == id && SafeId(id) && r.startedMs <= r.finishedMs
    && |r.stdout| <= 65536 && |r.stderr| <= 65536
    && r.stdoutOmitted + 65536 < 0x1_0000_0000_0000_0000 && r.stderrOmitted + 65536 < 0x1_0000_0000_0000_0000
  }

  lemma RecordsAreSound(r: Completed, id: Name)
    ensures ValidRecord(r, id) <==> SoundRecord(r, id)
  {
    IdsAreSafe(id);
  }

  // A regular file of at most 1 MiB.
  predicate SmallFile(f: File) {
    f.regular && f.length <= 1048576
  }

  // A small file that names a finish at least 30 minutes ago.
  predicate OverAge(f: File, now: nat) {
    SmallFile(f) &&
    match f.content
    case Json(record) => record.finishedMs + 1800000 <= now
    case Stamp(finishedMs) => finishedMs + 1800000 <= now
    case Garbage => false
  }

  lemma ExpiresExactly(f: File, now: nat)
    ensures Expired(f, now) <==> OverAge(f, now)
  {
  }

  // Exactly the over-age results are gone, but for those in `stuck`.
  ghost predicate DropsOverAge(before: Files, after: Files, now: nat, stuck: set<FileName>) {
    forall n :: n in before ==> (n in after <==> !(n.TaskFile? && OverAge(before[n], now)) || n in stuck)
  }

  lemma ScanDropsOverAge(before: Files, after: Files, now: nat, stuck: set<FileName>)
    requires Scanned(before, after, {}, Lengths(after), now, stuck)
    ensures DropsOverAge(before, after, now, stuck)
  {
    forall n | n in before ensures n in after <==> !(n.TaskFile? && OverAge(before[n], now)) || n in stuck {
      ExpiresExactly(before[n], now);
    }
  }

  // The file under the id, if it is young, private and a sound record of that id.
  ghost predicate Answerable(files: Files, id: Name, now: nat) {
    && SafeId(id) && TaskFile(id) in files
    && SmallFile(files[TaskFile(id)]) && files[TaskFile(id)].isPrivate && !OverAge(files[TaskFile(id)], now)
    && files[TaskFile(id)].content.Json? && SoundRecord(files[TaskFile(id)].content.record, id)
  }

  // There is nothing under the id, or only what is over age.
  ghost predicate Forgotten(files: Files, id: Name, now: nat) {
    SafeId(id) && (TaskFile(id) !in files || OverAge(files[TaskFile(id)], now))
  }

  // Main result: a result is shown exactly if it can be read and is not over age; it
  // is reported missing exactly if it is not there or over age and removed; anything
  // else is an error.
  lemma AnswersExactly(files: Files, id: Name, maxBytes: nat, now: nat, stuck: bool)
    ensures var r := StoredOutput(files, id, maxBytes, now, stuck);
      && (r.Ok? && r.value.Some? <==> Answerable(files, id, now))
      && (r == Ok(None) <==> Forgotten(files, id, now) && (TaskFile(id) in files ==> !stuck))
  {
    IdsAreSafe(id);
    if TaskFile(id) in files {
      var f := files[TaskFile(id)];
      ExpiresExactly(f, now);
      if f.content.Json? { RecordsAreSound(f.content.record, id); }
    }
  }

  // Stored already just as it is, or new and of at most 1 MiB.
  ghost predicate Storable(files: Files, r: Completed, json: Completed -> nat) {
    && SoundRecord(r, r.id)
    && if TaskFile(r.id) !in files then json(r) <= 1048576 else
      var f := files[TaskFile(r.id)]; SmallFile(f) && f.isPrivate && f.content == Json(r)
  }

  lemma AcceptsExactly(files: Files, r: Completed, json: Completed -> nat)
    ensures Accepted(files, r, json) <==> Storable(files, r, json)
  {
    RecordsAreSound(r, r.id);
  }

  class Store {
    var files: Files
    // The length of a record's text.
    const json: Completed -> nat

    constructor (files: Files, json: Completed -> nat)
      ensures this.files == files && this.json == json
    {
      this.files, this.json := files, json;
    }

    // Looks at every entry in whatever order the directory gives them. The clock
    // may stop it after `slowAt` entries; expired results in `stuck` stay and count.
    method Scan(now: nat, slowAt: nat, stuck: set<FileName>)
      returns (r: Result<(map<FileName, int>, nat), StoreError>)
      modifies this`files
      ensures Keeps(old(files), files, now)
      ensures forall n :: n in files ==> n in old(files)
      ensures r.Ok? ==> r.value.0 == Lengths(files) && r.value.1 == MapSum(Lengths(files)) && WithinBounds(files)
      ensures r.Ok? ==> forall n :: n in old(files) ==> (n in files <==> !Removed(n, old(files)[n], now, stuck))
      ensures r.Ok? ==> DropsOverAge(old(files), files, now, stuck)
    {
      var left := files.Keys;
      var sizes: map<FileName, int> := map[];
      var scanned, total: nat := 0, 0;
      while left != {}
        invariant Scanned(old(files), files, left, sizes, now, stuck)
        invariant total == MapSum(sizes) && total <= MAX_STORE_BYTES && |sizes| <= MAX_RECORDS
      {
        if scanned >= MAX_SCAN_ENTRIES || scanned >= slowAt {
          return Err(ScanBound);
        }
        scanned := scanned + 1;
        var name :| name in left;
        var f := files[name];
        if name.TaskFile? && Expired(f, now) && name !in stuck {
          ScanDrops(old(files), files, left, sizes, now, stuck, name);
          left, files := left - {name}, files - {name};
        } else {
          if |sizes| >= MAX_RECORDS {
            return Err(RecordBound);
          }
          ScanCounts(old(files), files, left, sizes, now, stuck, name);
          left, sizes, total := left - {name}, sizes[name := f.length], total + f.length;
          if total > MAX_STORE_BYTES {
            return Err(ByteBound);
          }
        }
      }
      ScanEnds(old(files), files, sizes, now, stuck);
      ScanDropsOverAge(old(files), files, now, stuck);
      r := Ok((sizes, total));
    }

    // Decides what to write, without writing. It refuses exactly when some record
    // is not acceptable or the store would outgrow its bounds.
    method Plan(records: seq<Completed>, counted: map<FileName, int>, countedBytes: int)
      returns (r: Result<seq<Completed>, StoreError>)
      requires counted == Lengths(files) && countedBytes == MapSum(counted) && WithinBounds(files)
      ensures r.Ok? ==>
        r.value == Pending(files, records, |records|) && WithinBounds(Saved(files, records, |records|, json))
      ensures r.Ok? <==>
        (forall j :: 0 <= j < |records| ==> Accepted(files, records[j], json)) && Fits(files, records, |records|, json)
      ensures r.Ok? ==> forall j :: 0 <= j < |records| ==> Storable(files, records[j], json)
      ensures r.Err? ==>
        (exists j :: 0 <= j < |records| && !Storable(files, records[j], json)) || !Fits(files, records, |records|, json)
    {
      forall j | 0 <= j < |records| ensures Accepted(files, records[j], json) <==> Storable(files, records[j], json) {
        AcceptsExactly(files, records[j], json);
      }
      var writes: seq<Completed> := [];
      var sizes, total := counted, countedBytes;
      PlanStarts(files, records, sizes, total, json);
      for i := 0 to |records|
        invariant writes == Pending(files, records, i)
        invariant Planned(files, records, i, sizes, total, json)
      {
        var record := records[i];
        if !ValidRecord(record, record.id) {
          return Err(BadRecord);
        }
        var existing := ReadRecord(files, record.id);
        if existing.Err? {
          return Err(existing.error);
        }
        if existing.value.Some? {
          if existing.value.value != record {
            return Err(Different);
          }
          PlanSkips(files, records, i, sizes, total, json);
        } else {
          if json(record) > MAX_RECORD_BYTES {
            return Err(TooLong);
          }
          PlanRoom(files, records, i, sizes, total, json);
          var newSizes := sizes[TaskFile(record.id) := json(record)];
          if |newSizes| > MAX_RECORDS || total + json(record) > MAX_STORE_BYTES {
            Overfull(files, records, i + 1, json);
            return Err(if |newSizes| > MAX_RECORDS then RecordBound else ByteBound);
          }
          PlanAdds(files, records, i, sizes, total, json);
          sizes, total := newSizes, total + json(record);
          writes := writes + [record];
        }
      }
      r := Ok(writes);
    }

    // Writes one file after another; `failAt` is the write that fails, if any does.
    method WriteAll(writes: seq<Completed>, failAt: Option<nat>) returns (r: Result<(), StoreError>)
      modifies this`files
      ensures r.Ok? ==> files == Written(old(files), writes, |writes|, json)
      ensures exists k :: 0 <= k <= |writes| && files == Written(old(files), writes, k, json)
    {
      for k := 0 to |writes|
        invariant files == Written(old(files), writes, k, json)
      {
        if failAt == Some(k) {
          return Err(WriteFailed);
        }
        files := files[TaskFile(writes[k].id) := FileOf(writes[k], json)];
      }
      r := Ok(());
    }

    // A save that succeeds has every record readable and the store within its
    // bounds; whether or not it succeeds, nothing unexpired is lost or changed.
    method Save(records: seq<Completed>, now: nat, slowAt: nat, stuck: set<FileName>, failAt: Option<nat>)
      returns (r: Result<(), StoreError>)
      modifies this`files
      ensures Keeps(old(files), files, now)
      ensures r.Ok? ==> WithinBounds(files)
      ensures r.Ok? ==> forall j :: 0 <= j < |records| && LastOfItsId(records, j) ==> Holds(files, records[j])
    {
      var scanned := Scan(now, slowAt, stuck);
      if scanned.Err? {
        return Err(scanned.error);
      }
      ghost var kept := files;
      var plan := Plan(records, scanned.value.0, scanned.value.1);
      if plan.Err? {
        return Err(plan.error);
      }
      r := WriteAll(plan.value, failAt);
      PendingIsAbsent(kept, records, |records|);
      ghost var k :| 0 <= k <= |plan.value| && files == Written(kept, plan.value, k, json);
      WritesSpare(kept, plan.value, k, json);
      if r.Ok? { SavedHolds(kept, records, json); }
    }

    // Answers from the store, dropping the result if its time is over.
    method Output(id: Name, maxBytes: nat, now: nat, stuck: bool) returns (r: Result<Option<Reply>, StoreError>)
      modifies this`files
      ensures r == StoredOutput(old(files), id, maxBytes, now, stuck)
      ensures r.Ok? && r.value.Some? ==>
        Recorded(old(files), id, r.value.value, maxBytes)
      ensures Keeps(old(files), files, now)
      ensures r.Ok? && r.value.Some? <==> Answerable(old(files), id, now)
      ensures r == Ok(None) <==> Forgotten(old(files), id, now) && (TaskFile(id) in old(files) ==> !stuck)
      ensures files == if r == Ok(None) then old(files) - {TaskFile(id)} else old(files)
    {
      AnswersExactly(files, id, maxBytes, now, stuck);
      if !ValidId(id) {
        return Err(BadId);
      }
      if TaskFile(id) !in files {
        return Ok(None);
      }
      var f := files[TaskFile(id)];
      if !Readable(f) || FinishedStamp(f.content).None? {
        return Err(Unreadable);
      }
      if Expired(f, now) {
        if stuck {
          return Err(RemoveFailed);
        }
        files := files - {TaskFile(id)};
        return Ok(None);
      }
      var record := ReadRecord(files, id);
      if record.Err? {
        return Err(record.error);
      }
      if record.value.Some? { StoredReplyShows(record.value.value, maxBytes); }
      r := if record.value.None? then Ok(None) else Ok(Some(StoredReply(record.value.value, maxBytes)));
    }
  }

  // ---- Retention ----

  // Through any run of saves and answers, by whichever host, a result is kept
  // unchanged as long as no clock has reached its expiry.
  lemma {:induction false} KeptUntilExpiry(stores: seq<Files>, times: seq<nat>, n: nat, name: FileName, latest: nat)
    requires |stores| == |times| + 1 && n <= |times|
    requires forall i :: 0 <= i < |times| ==> Keeps(stores[i], stores[i + 1], times[i]) && times[i] <= latest
    requires name in stores[0] && !Prunable(name, stores[0][name], latest)
    ensures name in stores[n] && stores[n][name] == stores[0][name]
  {
    if n > 0 {
      KeptUntilExpiry(stores, times, n - 1, name, latest);
      assert Keeps(stores[n - 1], stores[n], times[n - 1]);
    }
  }
}
