// Recordings of a browser session's events: a repeated network event is merged
// into the one before it, and a recording ends at a time or size limit.
//
// Proved: expanding a recording by its repeats gives exactly the events accepted
// since it was started, in every run, and the size and activity limits hold.
module Recorder {
  import opened Sums
  import opened Wrappers

  const MAX_DURATION_MS := 20 * 60 * 1000
  const MAX_BYTES := 500 * 1024 * 1024
  const MAX_ACTIVE := 10
  const MAX_SESSION_LEN := 64
  const NETWORK := Name("network")

  // A sanitised event as the recording compares it.
  datatype Event = Event(kind: Name, url: Option<Name>, text: Option<Name>, body: Option<Name>, isError: bool)

  datatype Stored = Stored(id: nat, event: Event, atMs: nat, repeat: nat, bytes: nat)

  datatype Recording = Recording(startedMs: nat, stopped: bool, bytes: nat, nextId: nat, events: seq<Stored>)

  type Recordings = map<Name, Recording>

  datatype RecordError = InvalidSession | AlreadyActive | LimitActive | NotFound | NotActive | SizeLimit | EventNotFound

  predicate SessionChar(c: char) {
    'a' <= c <= 'z' || 'A' <= c <= 'Z' || '0' <= c <= '9' || c == '_' || c == '-'
  }

  predicate ValidSession(session: Name) {
    0 < |session.text| <= MAX_SESSION_LEN && forall i :: 0 <= i < |session.text| ==> SessionChar(session.text[i])
  }

  // ---- One recording ----

  function Expired(r: Recording, now: nat): Recording {
    if !r.stopped && Minus(now, r.startedMs) > MAX_DURATION_MS then r.(stopped := true) else r
  }

  predicate Merges(r: Recording, e: Event) {
    e.kind == NETWORK && r.events != [] && r.events[|r.events| - 1].event == e
  }

  // Adds an event whose stored text is `size` long.
  function Recorded(r: Recording, e: Event, size: nat, now: nat): (Recording, Result<(), RecordError>) {
    var r := Expired(r, now);
    if r.stopped then (r, Err(NotActive))
    else if Merges(r, e) then
      var last := r.events[|r.events| - 1];
      (r.(events := r.events[|r.events| - 1 := last.(repeat := last.repeat + 1)]), Ok(()))
    else if r.bytes + size > MAX_BYTES then (r.(stopped := true), Err(SizeLimit))
    else
      var stored := Stored(r.nextId, e, now, 1, size);
      (r.(bytes := r.bytes + size, nextId := r.nextId + 1, events := r.events + [stored]), Ok(()))
  }

  // ---- What a recording keeps ----

  function BytesTo(events: seq<Stored>, n: nat): nat
    requires n <= |events|
  {
    if n == 0 then 0 else BytesTo(events, n - 1) + events[n - 1].bytes
  }

  ghost predicate Good(r: Recording) {
    && r.bytes == BytesTo(r.events, |r.events|) <= MAX_BYTES
    && r.nextId == |r.events| + 1
    && (forall i :: 0 <= i < |r.events| ==> r.events[i].id == i + 1 && r.events[i].repeat >= 1)
    && (forall i :: 0 <= i < |r.events| && r.events[i].repeat > 1 ==> r.events[i].event.kind == NETWORK)
    && (forall i :: 0 < i < |r.events| && r.events[i].event.kind == NETWORK ==>
      r.events[i - 1].event != r.events[i].event)
  }

  lemma {:induction false} BytesAgree(a: seq<Stored>, b: seq<Stored>, n: nat)
    requires n <= |a| && n <= |b|
    requires forall i :: 0 <= i < n ==> a[i].bytes == b[i].bytes
    ensures BytesTo(a, n) == BytesTo(b, n)
  {
    if n > 0 { BytesAgree(a, b, n - 1); }
  }

  lemma MergeKeepsGood(r: Recording, e: Event)
    requires Good(r) && Merges(r, e)
    ensures var last := r.events[|r.events| - 1];
      Good(r.(events := r.events[|r.events| - 1 := last.(repeat := last.repeat + 1)]))
  {
    var last := r.events[|r.events| - 1];
    BytesAgree(r.events[|r.events| - 1 := last.(repeat := last.repeat + 1)], r.events, |r.events|);
  }

  lemma AppendKeepsGood(r: Recording, e: Event, size: nat, now: nat)
    requires Good(r) && !Merges(r, e) && r.bytes + size <= MAX_BYTES
    ensures var stored := Stored(r.nextId, e, now, 1, size);
      Good(r.(bytes := r.bytes + size, nextId := r.nextId + 1, events := r.events + [stored]))
  {
    BytesAgree(r.events + [Stored(r.nextId, e, now, 1, size)], r.events, |r.events|);
  }

  lemma RecordedKeepsGood(r: Recording, e: Event, size: nat, now: nat)
    requires Good(r)
    ensures Good(Recorded(r, e, size, now).0)
  {
    var x := Expired(r, now);
    if !x.stopped {
      if Merges(x, e) {
        MergeKeepsGood(x, e);
      } else if x.bytes + size <= MAX_BYTES {
        AppendKeepsGood(x, e, size, now);
      }
    }
  }

  // ---- The stream behind a recording ----

  function Copies(e: Event, n: nat): (s: seq<Event>)
    ensures |s| == n
  {
    seq(n, i => e)
  }

  // Each stored event as often as it occurred.
  function ExpandTo(events: seq<Stored>, n: nat): seq<Event>
    requires n <= |events|
  {
    if n == 0 then [] else ExpandTo(events, n - 1) + Copies(events[n - 1].event, events[n - 1].repeat)
  }

  function Expand(r: Recording): seq<Event> {
    ExpandTo(r.events, |r.events|)
  }

  lemma {:induction false} ExpandAgrees(a: seq<Stored>, b: seq<Stored>, n: nat)
    requires n <= |a| && n <= |b|
    requires forall i :: 0 <= i < n ==> a[i] == b[i]
    ensures ExpandTo(a, n) == ExpandTo(b, n)
  {
    if n > 0 { ExpandAgrees(a, b, n - 1); }
  }

  // An accepted event is the next one of the stream, merged or not; a refused one
  // leaves the stream as it was.
  lemma RecordedExtendsStream(r: Recording, e: Event, size: nat, now: nat)
    ensures var (r', result) := Recorded(r, e, size, now);
      Expand(r') == if result.Ok? then Expand(r) + [e] else Expand(r)
  {
    var (r', result) := Recorded(r, e, size, now);
    var n := |r.events|;
    if result.Ok? {
      if Merges(Expired(r, now), e) {
        ExpandAgrees(r'.events, r.events, n - 1);
        assert Copies(e, r.events[n - 1].repeat + 1) == Copies(e, r.events[n - 1].repeat) + [e];
      } else {
        ExpandAgrees(r'.events, r.events, n);
        assert Copies(e, 1) == [e];
      }
    }
  }

  // ---- Reading a recording ----

  // `kind` keeps one kind only, `errors` problem events only, `exclude` drops
  // events whose URL contains the text.
  datatype Filter = Filter(kind: Option<Name>, errors: bool, exclude: Option<Name>)

  predicate OccursAt(text: string, part: string, i: nat) {
    i + |part| <= |text| && text[i..i + |part|] == part
  }

  predicate Contains(text: string, part: string) {
    exists i :: 0 <= i <= |text| && OccursAt(text, part, i)
  }

  predicate Passes(f: Filter, e: Event) {
    && (f.kind.Some? ==> e.kind == f.kind.value)
    && (f.errors ==> e.isError)
    && (f.exclude.Some? && f.exclude.value.text != "" && e.url.Some? ==>
      !Contains(e.url.value.text, f.exclude.value.text))
  }

  function FilteredTo(events: seq<Stored>, f: Filter, n: nat): seq<Stored>
    requires n <= |events|
  {
    if n == 0 then []
    else FilteredTo(events, f, n - 1) + (if Passes(f, events[n - 1].event) then [events[n - 1]] else [])
  }

  // A reading lists events that pass, in the order of their ids.
  lemma {:induction false} FilteredInOrder(events: seq<Stored>, f: Filter, n: nat, i: nat)
    requires n <= |events| && i < |FilteredTo(events, f, n)|
    requires forall k :: 0 <= k < |events| ==> events[k].id == k + 1
    ensures var list := FilteredTo(events, f, n);
      && 1 <= list[i].id <= n && list[i] == events[list[i].id - 1] && Passes(f, list[i].event)
      && (i > 0 ==> list[i - 1].id < list[i].id)
  {
    var before := FilteredTo(events, f, n - 1);
    if i < |before| {
      FilteredInOrder(events, f, n - 1, i);
    } else if i > 0 {
      FilteredInOrder(events, f, n - 1, i - 1);
    }
  }

  // It lists every event that passes.
  lemma {:induction false} FilteredHasAll(events: seq<Stored>, f: Filter, n: nat, k: nat) returns (i: nat)
    requires k < n <= |events| && Passes(f, events[k].event)
    ensures i < |FilteredTo(events, f, n)| && FilteredTo(events, f, n)[i] == events[k]
  {
    if k == n - 1 { i := |FilteredTo(events, f, n - 1)|; } else { i := FilteredHasAll(events, f, n - 1, k); }
  }

  // ---- All recordings ----

  function Active(recordings: Recordings): set<Name> {
    set s | s in recordings && !recordings[s].stopped
  }

  function AllExpired(recordings: Recordings, now: nat): Recordings {
    map s | s in recordings :: Expired(recordings[s], now)
  }

  ghost predicate AllGood(recordings: Recordings) {
    && (forall s :: s in recordings ==> Good(recordings[s]))
    && |Active(recordings)| <= MAX_ACTIVE
  }

  datatype Op =
    | Start(session: Name, now: nat)
    | Stop(session: Name)
    | Record(session: Name, event: Event, telemetry: bool, size: nat, now: nat)
    | Read(session: Name, now: nat)

  function Started(recordings: Recordings, session: Name, now: nat): (Recordings, Result<(), RecordError>) {
    if !ValidSession(session) then (recordings, Err(InvalidSession))
    else
      var expired := AllExpired(recordings, now);
      if session in expired && !expired[session].stopped then (expired, Err(AlreadyActive))
      else if |Active(expired)| >= MAX_ACTIVE then (expired, Err(LimitActive))
      else (expired[session := Recording(now, false, 0, 1, [])], Ok(()))
  }

  function Stopped(recordings: Recordings, session: Name): (Recordings, Result<(), RecordError>) {
    if !ValidSession(session) then (recordings, Err(InvalidSession))
    else if session !in recordings then (recordings, Err(NotFound))
    else (recordings[session := recordings[session].(stopped := true)], Ok(()))
  }

  // A telemetry request is dropped before the recording is even looked up.
  function Captured(recordings: Recordings, session: Name, e: Event, telemetry: bool, size: nat, now: nat):
      (Recordings, Result<(), RecordError>)
  {
    if !ValidSession(session) then (recordings, Err(InvalidSession))
    else if telemetry then (recordings, Ok(()))
    else if session !in recordings then (recordings, Err(NotActive))
    else
      var (r, result) := Recorded(recordings[session], e, size, now);
      (recordings[session := r], result)
  }

  function Reread(recordings: Recordings, session: Name, now: nat): Recordings {
    if ValidSession(session) && session in recordings then recordings[session := Expired(recordings[session], now)]
    else recordings
  }

  function Listing(recordings: Recordings, session: Name, f: Filter): Result<seq<Stored>, RecordError> {
    if !ValidSession(session) then Err(InvalidSession)
    else if session !in recordings then Err(NotFound)
    else Ok(FilteredTo(recordings[session].events, f, |recordings[session].events|))
  }

  function Step(recordings: Recordings, op: Op): Recordings {
    match op
    case Start(session, now) => Started(recordings, session, now).0
    case Stop(session) => Stopped(recordings, session).0
    case Record(session, e, telemetry, size, now) => Captured(recordings, session, e, telemetry, size, now).0
    case Read(session, now) => Reread(recordings, session, now)
  }

  // ---- The operations in the fields ----

  // One to 64 ASCII letters, digits, underscores and hyphens.
  ghost predicate PlainSession(session: Name) {
    && 1 <= |session.text| <= 64
    && forall c :: c in session.text ==>
      48 <= c as int <= 57 || 65 <= c as int <= 90 || 97 <= c as int <= 122 || c as int == 95 || c as int == 45
  }

  lemma SessionsArePlain(session: Name)
    ensures ValidSession(session) <==> PlainSession(session)
  {
    assert '0' as int == 48 && 'A' as int == 65 && 'a' as int == 97 && '_' as int == 95 && '-' as int == 45;
    if PlainSession(session) {
      assert forall i :: 0 <= i < |session.text| ==> session.text[i] in session.text;
    }
  }

  // Not stopped and at most 20 minutes old.
  predicate Live(r: Recording, now: nat) {
    !r.stopped && now <= r.startedMs + 1200000
  }

  lemma ExpiredExactly(r: Recording, now: nat)
    ensures Expired(r, now) == r.(stopped := !Live(r, now))
  {
  }

  ghost predicate LiveAt(recordings: Recordings, session: Name, now: nat) {
    session in recordings && Live(recordings[session], now)
  }

  // Everybody is looked at, and what is over is stopped.
  ghost predicate OthersAged(before: Recordings, after: Recordings, now: nat, except: Name) {
    && before.Keys <= after.Keys <= before.Keys + {except}
    && forall s :: s in before && s != except ==> after[s] == before[s].(stopped := !Live(before[s], now))
  }

  function LiveSessions(recordings: Recordings, now: nat): set<Name> {
    set s | s in recordings && Live(recordings[s], now)
  }

  // Main result: a recording starts exactly for a plain name that has no live
  // recording while fewer than ten are live, and it starts empty.
  lemma StartsExactly(recordings: Recordings, session: Name, now: nat)
    ensures var (after, r) := Started(recordings, session, now);
      && (r.Ok? <==> PlainSession(session) && !LiveAt(recordings, session, now) && |LiveSessions(recordings, now)| < 10)
      && (r == Err(InvalidSession) <==> !PlainSession(session))
      && (r == Err(AlreadyActive) <==> PlainSession(session) && LiveAt(recordings, session, now))
      && (r.Ok? ==> OthersAged(recordings, after, now, session))
      && (r.Ok? ==> session in after && after[session] == Recording(now, false, 0, 1, []))
  {
    SessionsArePlain(session);
    var expired := AllExpired(recordings, now);
    forall s | s in recordings ensures expired[s] == recordings[s].(stopped := !Live(recordings[s], now)) {
      ExpiredExactly(recordings[s], now);
    }
    assert Active(expired) == LiveSessions(recordings, now);
  }

  // The event is the last one of the recording again.
  predicate RepeatsLast(r: Recording, e: Event) {
    e.kind.text == "network" && |r.events| > 0 && r.events[|r.events| - 1].event == e
  }

  ghost predicate Accepts(recordings: Recordings, session: Name, e: Event, size: nat, now: nat) {
    && PlainSession(session) && LiveAt(recordings, session, now)
    && (RepeatsLast(recordings[session], e) || recordings[session].bytes + size <= 524288000)
  }

  // Main result: an event that is not telemetry is accepted exactly by a live
  // recording that it repeats the last event of, or that has room for it within
  // 500 MiB; an event too long ends the recording.
  lemma AcceptsExactly(recordings: Recordings, session: Name, e: Event, size: nat, now: nat)
    ensures var (after, r) := Captured(recordings, session, e, false, size, now);
      && (r.Ok? <==> Accepts(recordings, session, e, size, now))
      && (r == Err(SizeLimit) ==> session in after && after[session].stopped)
      && (r == Err(InvalidSession) <==> !PlainSession(session))
  {
    SessionsArePlain(session);
    if session in recordings { ExpiredExactly(recordings[session], now); }
  }

  // What a filter asks of an event: its kind, that it is a problem, and that its
  // URL does not contain the text.
  ghost predicate Asked(f: Filter, e: Event) {
    && (f.kind.None? || e.kind == f.kind.value)
    && (!f.errors || e.isError)
    && (f.exclude.None? || f.exclude.value.text == "" || e.url.None?
      || forall i, j :: 0 <= i <= j <= |e.url.value.text| ==> e.url.value.text[i..j] != f.exclude.value.text)
  }

  lemma PassesExactly(f: Filter, e: Event)
    ensures Passes(f, e) <==> Asked(f, e)
  {
    if f.exclude.Some? && f.exclude.value.text != "" && e.url.Some? {
      var text, part := e.url.value.text, f.exclude.value.text;
      if Contains(text, part) {
        var i :| 0 <= i <= |text| && OccursAt(text, part, i);
        assert text[i..i + |part|] == part;
      }
      if i, j :| 0 <= i <= j <= |text| && text[i..j] == part {
        assert OccursAt(text, part, i);
      }
    }
  }

  // Exactly the events the filter asks for are listed.
  lemma ListsExactly(events: seq<Stored>, f: Filter)
    requires forall k :: 0 <= k < |events| ==> events[k].id == k + 1
    ensures forall k :: 0 <= k < |events| ==>
      (events[k] in FilteredTo(events, f, |events|) <==> Asked(f, events[k].event))
  {
    var list := FilteredTo(events, f, |events|);
    forall k | 0 <= k < |events| ensures events[k] in list <==> Asked(f, events[k].event) {
      PassesExactly(f, events[k].event);
      if Passes(f, events[k].event) { var i := FilteredHasAll(events, f, |events|, k); }
      if events[k] in list {
        var i :| 0 <= i < |list| && list[i] == events[k];
        FilteredInOrder(events, f, |events|, i);
      }
    }
  }

  lemma ExpiringKeepsGood(recordings: Recordings, now: nat)
    requires AllGood(recordings)
    ensures AllGood(AllExpired(recordings, now))
  {
    SubsetIsSmaller(Active(AllExpired(recordings, now)), Active(recordings));
  }

  lemma ActiveAfterAdd(recordings: Recordings, session: Name, r: Recording)
    ensures |Active(recordings[session := r])| <= |Active(recordings)| + 1
  {
    SubsetIsSmaller(Active(recordings[session := r]), Active(recordings) + {session});
  }

  lemma AddKeepsGood(recordings: Recordings, session: Name, now: nat)
    requires AllGood(recordings) && |Active(recordings)| < MAX_ACTIVE
    ensures AllGood(recordings[session := Recording(now, false, 0, 1, [])])
  {
    ActiveAfterAdd(recordings, session, Recording(now, false, 0, 1, []));
    assert Good(Recording(now, false, 0, 1, []));
  }

  lemma StartKeepsGood(recordings: Recordings, session: Name, now: nat)
    requires AllGood(recordings)
    ensures AllGood(Started(recordings, session, now).0)
  {
    ExpiringKeepsGood(recordings, now);
    if |Active(AllExpired(recordings, now))| < MAX_ACTIVE { AddKeepsGood(AllExpired(recordings, now), session, now); }
  }

  // Replacing a recording by one that is stopped whenever it was.
  lemma ReplaceKeepsGood(recordings: Recordings, session: Name, r: Recording)
    requires AllGood(recordings) && session in recordings && Good(r)
    requires recordings[session].stopped ==> r.stopped
    ensures AllGood(recordings[session := r])
  {
    SubsetIsSmaller(Active(recordings[session := r]), Active(recordings));
  }

  lemma StepKeepsGood(recordings: Recordings, op: Op)
    requires AllGood(recordings)
    ensures AllGood(Step(recordings, op))
  {
    match op
    case Start(session, now) => StartKeepsGood(recordings, session, now);
    case Stop(session) =>
      if session in recordings { ReplaceKeepsGood(recordings, session, recordings[session].(stopped := true)); }
    case Record(session, e, telemetry, size, now) =>
      if session in recordings {
        RecordedKeepsGood(recordings[session], e, size, now);
        ReplaceKeepsGood(recordings, session, Recorded(recordings[session], e, size, now).0);
      }
    case Read(session, now) =>
      if session in recordings { ReplaceKeepsGood(recordings, session, Expired(recordings[session], now)); }
  }

  function RunTo(ops: seq<Op>, n: nat): Recordings
    requires n <= |ops|
  {
    if n == 0 then map[] else Step(RunTo(ops, n - 1), ops[n - 1])
  }

  lemma {:induction false} ReachableIsGood(ops: seq<Op>, n: nat)
    requires n <= |ops|
    ensures AllGood(RunTo(ops, n))
  {
    if n > 0 {
      ReachableIsGood(ops, n - 1);
      StepKeepsGood(RunTo(ops, n - 1), ops[n - 1]);
    }
  }

  // What the accepted calls put into a session's recording since its latest start.
  function Accepted(ops: seq<Op>, n: nat, session: Name): seq<Event>
    requires n <= |ops|
  {
    if n == 0 then []
    else
      var before, op := RunTo(ops, n - 1), ops[n - 1];
      if op.session != session then Accepted(ops, n - 1, session)
      else if op.Start? && Started(before, session, op.now).1.Ok? then []
      else if op.Record? && !op.telemetry && Captured(before, session, op.event, false, op.size, op.now).1.Ok? then
        Accepted(ops, n - 1, session) + [op.event]
      else Accepted(ops, n - 1, session)
  }

  lemma OthersKeepStream(recordings: Recordings, op: Op, session: Name)
    requires session in recordings && op.session != session
    ensures session in Step(recordings, op) && Expand(Step(recordings, op)[session]) == Expand(recordings[session])
  {
  }

  // Main result: in every run, expanding the stored events by their repeats gives
  // back exactly the events accepted since the recording was started.
  lemma {:induction false} RecordingReproducesStream(ops: seq<Op>, n: nat, session: Name)
    requires n <= |ops|
    ensures session in RunTo(ops, n) ==> Expand(RunTo(ops, n)[session]) == Accepted(ops, n, session)
    ensures session !in RunTo(ops, n) ==> Accepted(ops, n, session) == []
  {
    if n > 0 {
      RecordingReproducesStream(ops, n - 1, session);
      var before, op := RunTo(ops, n - 1), ops[n - 1];
      if op.session != session {
        if session in before { OthersKeepStream(before, op, session); }
      } else if op.Record? && session in before {
        RecordedExtendsStream(before[session], op.event, op.size, op.now);
      }
    }
  }

  // ---- The recorder ----

  method Append(before: Recording, e: Event, size: nat, now: nat)
    returns (r: Recording, result: Result<(), RecordError>)
    ensures (r, result) == Recorded(before, e, size, now)
  {
    r, result := before, Ok(());
    if !r.stopped && Minus(now, r.startedMs) > MAX_DURATION_MS {
      r := r.(stopped := true);
    }
    if r.stopped {
      return r, Err(NotActive);
    }
    if e.kind == NETWORK && |r.events| > 0 {
      var last := r.events[|r.events| - 1];
      if last.event == e {
        r := r.(events := r.events[|r.events| - 1 := last.(repeat := last.repeat + 1)]);
        return r, Ok(());
      }
    }
    if r.bytes + size > MAX_BYTES {
      r := r.(stopped := true);
      return r, Err(SizeLimit);
    }
    r := r.(bytes := r.bytes + size, nextId := r.nextId + 1, events := r.events + [Stored(r.nextId, e, now, 1, size)]);
  }

  method Select(events: seq<Stored>, f: Filter) returns (list: seq<Stored>)
    ensures list == FilteredTo(events, f, |events|)
  {
    list := [];
    for i := 0 to |events|
      invariant list == FilteredTo(events, f, i)
    {
      if Passes(f, events[i].event) { list := list + [events[i]]; }
    }
  }

  class ActionRecorder {
    var recordings: Recordings

    ghost predicate Valid()
      reads this
    {
      AllGood(recordings)
    }

    constructor ()
      ensures Valid() && recordings == map[]
    {
      recordings := map[];
    }

    method ExpireAll(now: nat)
      requires Valid()
      modifies this
      ensures Valid() && recordings == AllExpired(old(recordings), now)
    {
      var left := recordings.Keys;
      while left != {}
        invariant left <= recordings.Keys == old(recordings).Keys
        invariant forall s :: s in recordings ==>
          recordings[s] == if s in left then old(recordings)[s] else Expired(old(recordings)[s], now)
      {
        var s :| s in left;
        recordings, left := recordings[s := Expired(recordings[s], now)], left - {s};
      }
      assert recordings == AllExpired(old(recordings), now);
      ExpiringKeepsGood(old(recordings), now);
    }

    method Start(session: Name, now: nat) returns (r: Result<(), RecordError>)
      requires Valid()
      modifies this
      ensures Valid() && (recordings, r) == Started(old(recordings), session, now)
      ensures r.Ok? <==>
        PlainSession(session) && !LiveAt(old(recordings), session, now) && |LiveSessions(old(recordings), now)| < 10
      ensures r.Ok? ==> OthersAged(old(recordings), recordings, now, session)
      ensures r.Ok? ==> session in recordings && recordings[session] == Recording(now, false, 0, 1, [])
    {
      StartsExactly(recordings, session, now);
      if !ValidSession(session) {
        return Err(InvalidSession);
      }
      ExpireAll(now);
      if session in recordings && !recordings[session].stopped {
        return Err(AlreadyActive);
      }
      if |Active(recordings)| >= MAX_ACTIVE {
        return Err(LimitActive);
      }
      AddKeepsGood(recordings, session, now);
      recordings := recordings[session := Recording(now, false, 0, 1, [])];
      r := Ok(());
    }

    method Stop(session: Name) returns (r: Result<(), RecordError>)
      requires Valid()
      modifies this
      ensures Valid() && (recordings, r) == Stopped(old(recordings), session)
      ensures r.Ok? <==> PlainSession(session) && session in old(recordings)
      ensures r.Ok? ==> recordings == old(recordings)[session := old(recordings[session]).(stopped := true)]
    {
      SessionsArePlain(session);
      StepKeepsGood(recordings, Op.Stop(session));
      if !ValidSession(session) {
        return Err(InvalidSession);
      }
      if session !in recordings {
        return Err(NotFound);
      }
      recordings := recordings[session := recordings[session].(stopped := true)];
      r := Ok(());
    }

    method RecordEvent(session: Name, e: Event, telemetry: bool, size: nat, now: nat)
      returns (r: Result<(), RecordError>)
      requires Valid()
      modifies this
      ensures Valid() && (recordings, r) == Captured(old(recordings), session, e, telemetry, size, now)
      ensures telemetry ==> recordings == old(recordings) && (r.Ok? <==> PlainSession(session))
      ensures !telemetry ==> (r.Ok? <==> Accepts(old(recordings), session, e, size, now))
    {
      SessionsArePlain(session);
      AcceptsExactly(recordings, session, e, size, now);
      StepKeepsGood(recordings, Record(session, e, telemetry, size, now));
      if !ValidSession(session) {
        return Err(InvalidSession);
      }
      if telemetry {
        return Ok(());
      }
      if session !in recordings {
        return Err(NotActive);
      }
      var recording, result := Append(recordings[session], e, size, now);
      recordings, r := recordings[session := recording], result;
    }

    method Events(session: Name, f: Filter, now: nat) returns (r: Result<seq<Stored>, RecordError>)
      requires Valid()
      modifies this
      ensures Valid() && recordings == Reread(old(recordings), session, now)
      ensures r == Listing(old(recordings), session, f)
      ensures r.Ok? <==> PlainSession(session) && session in old(recordings)
      ensures r.Ok? ==> forall k :: 0 <= k < |old(recordings[session]).events| ==>
        (old(recordings[session]).events[k] in r.value <==> Asked(f, old(recordings[session]).events[k].event))
    {
      SessionsArePlain(session);
      if session in recordings { ListsExactly(recordings[session].events, f); }
      if !ValidSession(session) {
        return Err(InvalidSession);
      }
      if session !in recordings {
        return Err(NotFound);
      }
      ReplaceKeepsGood(recordings, session, Expired(recordings[session], now));
      recordings := recordings[session := Expired(recordings[session], now)];
      var list := Select(recordings[session].events, f);
      r := Ok(list);
    }

    // The event with this id, if the session's recording has one.
    method Frame(session: Name, id: nat) returns (r: Result<Stored, RecordError>)
      requires Valid()
      ensures r == if !ValidSession(session) then Err(InvalidSession)
                   else if session !in recordings then Err(NotFound)
                   else if 1 <= id <= |recordings[session].events| then Ok(recordings[session].events[id - 1])
                   else Err(EventNotFound)
    {
      if !ValidSession(session) {
        return Err(InvalidSession);
      }
      if session !in recordings {
        return Err(NotFound);
      }
      var events := recordings[session].events;
      for i := 0 to |events|
        invariant forall k :: 0 <= k < i ==> events[k].id != id
      {
        if events[i].id == id {
          return Ok(events[i]);
        }
      }
      r := Err(EventNotFound);
    }
  }
}
