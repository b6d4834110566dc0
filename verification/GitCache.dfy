// The cache of answers git gave about a directory. Layout answers hold until a git command that may change the
// layout runs in an overlapping directory. Index answers are filed under the identity of the index file and are
// dropped when the identity read by a later caller differs. Directories are their cache keys.
module GitCache {
  import opened Sums
  import opened Wrappers

  const MAX_ENTRIES := 512

  type Identity = nat

  // `rest` is empty or the pathspec part of the command.
  datatype Question = Layout(flag: Name) | Index(rest: Name) {
    function Text(): string {
      if Layout? then "rev-parse " + flag.text else "--literal-pathspecs ls-files -z --stage" + rest.text
    }
  }

  datatype Slot = Slot(dir: Name, question: Question)

  datatype Answer = Answer(stdout: string, stderr: string)

  // The instants at which the call that filed an entry read the identity and ran
  // git. The cache never looks at them.
  datatype Source = Source(readAt: nat, ranAt: nat)

  datatype Entry = Entry(dir: Name, answer: Answer, fingerprint: Option<Identity>, source: Source)

  // ---- Keys ----

  predicate NulFree(s: string) {
    '\0' !in s
  }

  function Joint(dir: string, text: string): string {
    dir + ['\0'] + text
  }

  function FlatKey(slot: Slot): string {
    Joint(slot.dir.text, slot.question.Text())
  }

  lemma TextsDiffer(a: Question, b: Question)
    requires a.Text() == b.Text()
    ensures a == b
  {
    assert a.Text()[0] == if a.Layout? then 'r' else '-';
    assert b.Text()[0] == if b.Layout? then 'r' else '-';
    var layout, index := "rev-parse ", "--literal-pathspecs ls-files -z --stage";
    if a.Layout? {
      assert a.flag.text == a.Text()[|layout|..] == b.flag.text;
    } else {
      assert a.rest.text == a.Text()[|index|..] == b.rest.text;
    }
  }

  lemma SeparatorIsFirstNul(dir: string, text: string, dir': string, text': string)
    requires NulFree(dir) && Joint(dir, text) == Joint(dir', text')
    ensures |dir| <= |dir'|
  {
    var key := Joint(dir, text);
    forall k | 0 <= k < |dir| ensures key[k] != '\0' {
      assert key[k] == dir[k];
    }
    assert Joint(dir', text')[|dir'|] == '\0';
  }

  lemma JointSplits(dir: string, text: string)
    ensures Joint(dir, text)[..|dir|] == dir && Joint(dir, text)[|dir| + 1..] == text
  {
  }

  // No path holds the separator, so a flat key determines directory and question.
  lemma KeysDiffer(a: Slot, b: Slot)
    requires NulFree(a.dir.text) && NulFree(b.dir.text)
    requires FlatKey(a) == FlatKey(b)
    ensures a == b
  {
    SeparatorIsFirstNul(a.dir.text, a.question.Text(), b.dir.text, b.question.Text());
    SeparatorIsFirstNul(b.dir.text, b.question.Text(), a.dir.text, a.question.Text());
    JointSplits(a.dir.text, a.question.Text());
    JointSplits(b.dir.text, b.question.Text());
    TextsDiffer(a.question, b.question);
  }

  // ---- Overlapping directories ----

  predicate Overlap(a: string, b: string) {
    a == b || b + "/" <= a || a + "/" <= b
  }

  function Components(path: string): (parts: seq<string>)
    ensures |parts| > 0
  {
    if path == "" then [""]
    else
      var rest := Components(path[1..]);
      if path[0] == '/' then [""] + rest else [[path[0]] + rest[0]] + rest[1..]
  }

  function Joined(parts: seq<string>): string
    requires |parts| > 0
  {
    if |parts| == 1 then parts[0] else parts[0] + "/" + Joined(parts[1..])
  }

  lemma {:induction false} JoinedComponents(path: string)
    ensures Joined(Components(path)) == path
  {
    if path != "" {
      var rest := Components(path[1..]);
      JoinedComponents(path[1..]);
      if path[0] == '/' {
        assert ([""] + rest)[1..] == rest;
      } else {
        assert ([[path[0]] + rest[0]] + rest[1..])[1..] == rest[1..];
      }
    }
  }

  lemma ComponentsOfCons(c: char, s: string)
    ensures Components([c] + s) ==
      if c == '/' then [""] + Components(s) else [[c] + Components(s)[0]] + Components(s)[1..]
  {
    assert ([c] + s)[1..] == s;
  }

  lemma HeadsAgree(c: char, a: seq<string>, b: seq<string>)
    requires |a| > 0
    ensures [""] + (a + b) == ([""] + a) + b
    ensures [[c] + (a + b)[0]] + (a + b)[1..] == ([[c] + a[0]] + a[1..]) + b
  {
  }

  lemma {:induction false} ComponentsOfJoin(a: string, rest: string)
    ensures Components(a + ['/'] + rest) == Components(a) + Components(rest)
  {
    if a == "" {
      ComponentsOfCons('/', rest);
      assert a + ['/'] + rest == ['/'] + rest;
    } else {
      var tail := Components(a[1..]);
      ComponentsOfJoin(a[1..], rest);
      ComponentsOfCons(a[0], a[1..] + ['/'] + rest);
      ComponentsOfCons(a[0], a[1..]);
      assert a == [a[0]] + a[1..];
      assert a + ['/'] + rest == [a[0]] + (a[1..] + ['/'] + rest);
      HeadsAgree(a[0], tail, Components(rest));
    }
  }

  lemma {:induction false} JoinedSplits(a: seq<string>, b: seq<string>)
    requires |a| > 0 && |b| > 0
    ensures Joined(a + b) == Joined(a) + "/" + Joined(b)
  {
    if |a| == 1 {
      assert (a + b)[1..] == b;
    } else {
      JoinedSplits(a[1..], b);
      assert (a + b)[1..] == a[1..] + b;
    }
  }

  // `a` lies strictly inside `b` in the text exactly when it does so by components.
  lemma InsideIsByComponents(a: string, b: string)
    ensures b + "/" <= a <==> Components(b) < Components(a)
  {
    if b + "/" <= a {
      var rest := a[|b| + 1..];
      assert a == b + "/" + rest;
      ComponentsOfJoin(b, rest);
    }
    if Components(b) < Components(a) {
      var rest := Components(a)[|Components(b)|..];
      assert Components(a) == Components(b) + rest;
      JoinedSplits(Components(b), rest);
      JoinedComponents(a);
      JoinedComponents(b);
    }
  }

  // Two directories overlap exactly when one is the other or an ancestor of it:
  // `/a/bc` does not overlap `/a/b`.
  lemma OverlapIsAncestry(a: string, b: string)
    ensures Overlap(a, b) <==> Components(a) <= Components(b) || Components(b) <= Components(a)
  {
    InsideIsByComponents(a, b);
    InsideIsByComponents(b, a);
    if Components(a) == Components(b) {
      JoinedComponents(a);
      JoinedComponents(b);
    }
  }

  // ---- The three operations on the entries ----

  // An entry answers a caller that read identity `live` if it is no index entry
  // or was filed under that identity.
  predicate Matches(e: Entry, live: Option<Identity>) {
    e.fingerprint.None? || e.fingerprint == live
  }

  function Recalled<K>(entries: map<K, Entry>, key: K, live: Option<Identity>): Option<Answer> {
    if key in entries && Matches(entries[key], live) then Some(entries[key].answer) else None
  }

  function AfterRecall<K>(entries: map<K, Entry>, key: K, live: Option<Identity>): map<K, Entry> {
    if key in entries && !Matches(entries[key], live) then entries - {key} else entries
  }

  function AfterRemember<K>(entries: map<K, Entry>, key: K, e: Entry): map<K, Entry> {
    if |entries| >= MAX_ENTRIES && key !in entries then map[key := e] else entries[key := e]
  }

  predicate Kept(e: Entry, dir: Name) {
    e.fingerprint.Some? || !Overlap(e.dir.text, dir.text)
  }

  function AfterForget<K>(entries: map<K, Entry>, dir: Name): map<K, Entry> {
    map k | k in entries && Kept(entries[k], dir) :: entries[k]
  }

  // The cache never outgrows its limit.
  lemma RememberStaysWithinLimit<K>(entries: map<K, Entry>, key: K, e: Entry)
    requires |entries| <= MAX_ENTRIES
    ensures |AfterRemember(entries, key, e)| <= MAX_ENTRIES
  {
    assert entries[key := e].Keys == entries.Keys + {key};
    if key in entries { assert entries.Keys + {key} == entries.Keys; }
  }

  lemma FewerKeysFewerEntries<K>(before: map<K, Entry>, after: map<K, Entry>)
    requires after.Keys <= before.Keys
    ensures |after| <= |before|
  {
    SubsetIsSmaller(after.Keys, before.Keys);
  }

  // Forgetting a directory drops exactly the layout answers of that directory,
  // its ancestors and its descendants.
  lemma ForgetDropsKin<K>(entries: map<K, Entry>, dir: Name, k: K)
    requires k in entries
    ensures var theirs, ours := Components(entries[k].dir.text), Components(dir.text);
      k !in AfterForget(entries, dir) <==> entries[k].fingerprint.None? && (theirs <= ours || ours <= theirs)
  {
    OverlapIsAncestry(entries[k].dir.text, dir.text);
  }

  // ---- The cache itself, with flat keys ----

  // `flat` holds under flat keys what `slots` holds under pairs.
  ghost predicate Represents(flat: map<string, Entry>, slots: map<Slot, Entry>) {
    && (forall slot :: slot in slots ==>
      NulFree(slot.dir.text) && FlatKey(slot) in flat && flat[FlatKey(slot)] == slots[slot])
    && (forall key :: key in flat ==> exists slot :: slot in slots && FlatKey(slot) == key)
  }

  lemma RepresentedRemoval(flat: map<string, Entry>, slots: map<Slot, Entry>, slot: Slot)
    requires Represents(flat, slots) && NulFree(slot.dir.text)
    ensures slot in slots <==> FlatKey(slot) in flat
    ensures Represents(flat - {FlatKey(slot)}, slots - {slot})
  {
    forall other | other in slots && FlatKey(other) == FlatKey(slot) ensures other == slot {
      KeysDiffer(other, slot);
    }
    forall key | key in flat - {FlatKey(slot)}
      ensures exists other :: other in slots - {slot} && FlatKey(other) == key
    {
      var other :| other in slots && FlatKey(other) == key;
      assert other in slots - {slot};
    }
  }

  lemma RepresentedRecall(flat: map<string, Entry>, slots: map<Slot, Entry>, slot: Slot, live: Option<Identity>)
    requires Represents(flat, slots) && NulFree(slot.dir.text)
    ensures Recalled(flat, FlatKey(slot), live) == Recalled(slots, slot, live)
    ensures Represents(AfterRecall(flat, FlatKey(slot), live), AfterRecall(slots, slot, live))
    ensures |AfterRecall(slots, slot, live)| <= |slots|
  {
    RepresentedRemoval(flat, slots, slot);
    FewerKeysFewerEntries(slots, AfterRecall(slots, slot, live));
  }

  lemma InsertedAt(flat: map<string, Entry>, slots: map<Slot, Entry>, slot: Slot, e: Entry, other: Slot)
    requires Represents(flat, slots) && NulFree(slot.dir.text) && other in slots[slot := e]
    ensures var flat', slots' := flat[FlatKey(slot) := e], slots[slot := e];
      NulFree(other.dir.text) && FlatKey(other) in flat' && flat'[FlatKey(other)] == slots'[other]
  {
    if other != slot && FlatKey(other) == FlatKey(slot) { KeysDiffer(other, slot); }
  }

  lemma RepresentedInsertion(flat: map<string, Entry>, slots: map<Slot, Entry>, slot: Slot, e: Entry)
    requires Represents(flat, slots) && NulFree(slot.dir.text)
    ensures Represents(flat[FlatKey(slot) := e], slots[slot := e])
  {
    var flat', slots' := flat[FlatKey(slot) := e], slots[slot := e];
    forall other | other in slots'
      ensures NulFree(other.dir.text) && FlatKey(other) in flat' && flat'[FlatKey(other)] == slots'[other]
    {
      InsertedAt(flat, slots, slot, e, other);
    }
    forall key | key in flat' ensures exists other :: other in slots' && FlatKey(other) == key {
      if key == FlatKey(slot) {
        assert slot in slots';
      } else {
        var other :| other in slots && FlatKey(other) == key;
        assert other in slots';
      }
    }
  }

  lemma RepresentedForgetting(flat: map<string, Entry>, slots: map<Slot, Entry>, dir: Name)
    requires Represents(flat, slots)
    ensures Represents(AfterForget(flat, dir), AfterForget(slots, dir))
  {
    var slots' := AfterForget(slots, dir);
    forall key | key in AfterForget(flat, dir) ensures exists slot :: slot in slots' && FlatKey(slot) == key {
      var slot :| slot in slots && FlatKey(slot) == key;
      assert slot in slots';
    }
  }

  lemma RemovalShrinks<K>(m: map<K, Entry>, k: K)
    requires k in m
    ensures |m - {k}| == |m| - 1
  {
    assert (m - {k}).Keys == m.Keys - {k};
  }

  lemma {:induction false} RepresentedSize(flat: map<string, Entry>, slots: map<Slot, Entry>)
    requires Represents(flat, slots)
    ensures |flat| == |slots|
    decreases |slots|
  {
    if slots.Keys == {} {
      assert flat.Keys == {};
    } else {
      var slot :| slot in slots;
      RemovalShrinks(slots, slot);
      RemovalShrinks(flat, FlatKey(slot));
      RepresentedRemoval(flat, slots, slot);
      RepresentedSize(flat - {FlatKey(slot)}, slots - {slot});
    }
  }

  // The answer under the key, if it is of use, and what is left of the entries.
  method TakeAnswer(entries: map<string, Entry>, key: string, live: Option<Identity>)
    returns (answer: Option<Answer>, left: map<string, Entry>)
    ensures answer == Recalled(entries, key, live) && left == AfterRecall(entries, key, live)
  {
    left := entries;
    if key !in entries {
      return None, left;
    }
    var e := entries[key];
    if e.fingerprint.Some? && live.Some? && e.fingerprint.value != live.value {
      left := entries - {key};
      answer := None;
    } else if e.fingerprint.Some? && live.None? {
      left := entries - {key};
      answer := None;
    } else {
      answer := Some(e.answer);
    }
  }

  // An entry is an answer for the identity `live` if it is no index entry or was
  // filed under that identity.
  predicate AnswerFor(entries: map<Slot, Entry>, slot: Slot, live: Option<Identity>) {
    slot in entries && (entries[slot].fingerprint.None? || (live.Some? && entries[slot].fingerprint == live))
  }

  // The answer, and what is left once an entry that is none has been dropped.
  ghost predicate RecalledFor(before: map<Slot, Entry>, slot: Slot, live: Option<Identity>, answer: Option<Answer>,
                              after: map<Slot, Entry>)
  {
    if AnswerFor(before, slot, live) then answer == Some(before[slot].answer) && after == before
    else answer == None && after == before - {slot}
  }

  lemma RecallsExactly(slots: map<Slot, Entry>, slot: Slot, live: Option<Identity>, answer: Option<Answer>,
                       after: map<Slot, Entry>)
    requires answer == Recalled(slots, slot, live) && after == AfterRecall(slots, slot, live)
    ensures RecalledFor(slots, slot, live, answer, after)
  {
    if slot !in slots { assert slots - {slot} == slots; }
  }

  // Exactly the layout answers of the directory, its ancestors and its descendants
  // are gone, and nothing else has changed.
  ghost predicate ForgotKin(before: map<Slot, Entry>, after: map<Slot, Entry>, dir: Name) {
    && (forall s :: s in after ==> s in before && after[s] == before[s])
    && forall s :: s in before ==>
      var theirs, ours := Components(before[s].dir.text), Components(dir.text);
      s in after <==> before[s].fingerprint.Some? || !(theirs <= ours || ours <= theirs)
  }

  lemma ForgetsExactly(entries: map<Slot, Entry>, dir: Name)
    ensures ForgotKin(entries, AfterForget(entries, dir), dir)
  {
    forall s | s in entries
      ensures var theirs, ours := Components(entries[s].dir.text), Components(dir.text);
        s in AfterForget(entries, dir) <==> entries[s].fingerprint.Some? || !(theirs <= ours || ours <= theirs)
    {
      ForgetDropsKin(entries, dir, s);
    }
  }

  class GitLayoutCache {
    var entries: map<string, Entry>
    ghost var slots: map<Slot, Entry>

    ghost predicate Valid()
      reads this
    {
      Represents(entries, slots) && |slots| <= MAX_ENTRIES
    }

    constructor ()
      ensures Valid() && slots == map[]
    {
      entries, slots := map[], map[];
    }

    method Recall(slot: Slot, live: Option<Identity>) returns (answer: Option<Answer>)
      requires Valid() && NulFree(slot.dir.text)
      modifies this
      ensures Valid() && answer == Recalled(old(slots), slot, live) && slots == AfterRecall(old(slots), slot, live)
      ensures RecalledFor(old(slots), slot, live, answer, slots)
    {
      RepresentedRecall(entries, slots, slot, live);
      answer, entries := TakeAnswer(entries, FlatKey(slot), live);
      slots := AfterRecall(slots, slot, live);
      RecallsExactly(old(slots), slot, live, answer, slots);
    }

    method Remember(slot: Slot, answer: Answer, fingerprint: Option<Identity>, source: Source)
      requires Valid() && NulFree(slot.dir.text)
      modifies this
      ensures Valid() && slots == AfterRemember(old(slots), slot, Entry(slot.dir, answer, fingerprint, source))
      ensures slots ==
        (if slot in old(slots) || |old(slots)| < 512 then old(slots) else map[])
        [slot := Entry(slot.dir, answer, fingerprint, source)]
    {
      var key, e := FlatKey(slot), Entry(slot.dir, answer, fingerprint, source);
      RepresentedRemoval(entries, slots, slot);
      RepresentedSize(entries, slots);
      RememberStaysWithinLimit(slots, slot, e);
      if |entries| >= MAX_ENTRIES && key !in entries {
        entries, slots := map[], map[];
      }
      RepresentedInsertion(entries, slots, slot, e);
      entries, slots := entries[key := e], slots[slot := e];
    }

    method ForgetDir(dir: Name)
      requires Valid()
      modifies this
      ensures Valid() && slots == AfterForget(old(slots), dir)
      ensures ForgotKin(old(slots), slots, dir)
    {
      ForgetsExactly(slots, dir);
      RepresentedForgetting(entries, slots, dir);
      FewerKeysFewerEntries(slots, AfterForget(slots, dir));
      entries := map k | k in entries &&
        (entries[k].fingerprint.Some? || !Overlap(entries[k].dir.text, dir.text)) :: entries[k];
      slots := AfterForget(slots, dir);
    }
  }
}
