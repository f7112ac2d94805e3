/** The history (clip/src/lib.rs, History). */
module Histories {
  import opened Wrappers
  import opened Codec
  import opened Order
  import opened PostingLists
  import opened Text
  import opened Records
  import opened Disk
  import opened Logs
  import opened Entries
  import opened Stores
  import opened Rows
  import opened Segments
  import opened Manifests
  import opened Recovery
  import opened Changes
  import opened Rewriting
  import opened Steps
  import opened Lookups
  import opened Tiers
  import opened Compaction
  import opened Searching
  import opened Queries
  import opened Meanings

  datatype Options = Options(sealBytes: u64, fanout: nat, autoMerge: bool, timeSetMax: nat)

  datatype NewEntry = NewEntry(copiedAt: i64, contents: seq<Content>, preview: Option<bytes>)

  /** The preview given, or one made of the text. */
  function PreviewOf(env: Env, e: NewEntry): bytes {
    match e.preview
    case Some(p) => p
    case None => match PrimaryText(env, e.contents) case Some(text) => env.preview(text) case None => []
  }

  function RecordFor(env: Env, id: u64, e: NewEntry): Record {
    Record(id, e.copiedAt, env.keys.dedup(Canonical(e.contents)), e.contents, PreviewOf(env, e))
  }

  /** What an entry's frame takes at most. */
  ghost function FrameSize(env: Env, r: Record, nonces: Nonces): nat {
    |Records.Sealed(env.keys, r, nonces)| + 8 * |IndexTerms(env, r.contents)| + 16
  }

  /** A live entry with these contents, in whatever order. */
  ghost predicate HasContents(a: Abs, id: u64, contents: seq<Content>) {
    id in a.items && multiset(a.items[id].record.contents) == multiset(contents)
  }

  ghost predicate Present(a: Abs, contents: seq<Content>) {
    exists id :: HasContents(a, id, contents)
  }

  ghost predicate IsNewest(a: Abs, r: Option<u64>, contents: seq<Content>) {
    match r
    case None => !Present(a, contents)
    case Some(id) => HasContents(a, id, contents) && forall x: u64 :: HasContents(a, x, contents) ==> x <= id
  }

  ghost predicate AllAmong(a: Abs, ids: seq<u64>, contents: seq<Content>) {
    forall id :: HasContents(a, id, contents) ==> id in ids
  }

  /** What appending `e` to the history `a` answers and leaves. */
  ghost predicate AppendsTo(env: Env, a: Abs, next: u64, e: NewEntry, nonces: Nonces, r: Result<Appended, Error>,
                            b: Abs)
    requires a.next <= next
  {
    var rec := RecordFor(env, next, e);
    if SizeOf(e.contents) > MAX_ENTRY then r == Err(TooLarge(SizeOf(e.contents))) && b == a
    else if Present(a, e.contents) then
      && r.Ok? && r.value.Again? && IsNewest(a, Some(r.value.id), e.contents)
      && b == Noted(a, Event(r.value.id, e.copiedAt, COPIED))
    else NewTo(env, a, next, e, nonces, r, b)
  }

  /** What appending `e` as a new entry answers and leaves. */
  ghost predicate NewTo(env: Env, a: Abs, next: u64, e: NewEntry, nonces: Nonces, r: Result<Appended, Error>, b: Abs)
    requires a.next <= next
  {
    var rec := RecordFor(env, next, e);
    if SizeOf(e.contents) > MAX_ENTRY then r == Err(TooLarge(SizeOf(e.contents))) && b == a
    else if FrameSize(env, rec, nonces) > MAX_FRAME then
      r == Err(TooLarge(|Records.Sealed(env.keys, rec, nonces)|)) && b == a
    else r == Ok(New(next)) && b == Added(a, rec)
  }

  /** More copies and pastes of one entry. */
  ghost function WithTimes(a: Abs, id: u64, copies: multiset<i64>, pastes: multiset<i64>): Abs
    requires id in a.items
  {
    var item := a.items[id];
    a.(items := a.items[id := item.(copies := item.copies + copies, pastes := item.pastes + pastes)])
  }

  /** The same entry with no copy or paste lost. */
  ghost predicate NothingLost(was: Item, now: Item) {
    now.record == was.record && was.copies <= now.copies && was.pastes <= now.pastes
  }

  /** The same history but for more events of entry `id`. */
  ghost predicate OnlyEventsOf(a: Abs, id: u64, x: Abs) {
    && id in a.items && id in x.items && x.next == a.next
    && x.items - {id} == a.items - {id} && NothingLost(a.items[id], x.items[id])
  }

  /** What importing makes the new entry of. */
  function NewOf(e: Entry): NewEntry {
    NewEntry(if e.copies == [] then e.copiedAt else e.copies[0], e.contents, Some(e.preview))
  }

  /** What importing `e` into the history `a` answers and leaves. A new entry has exactly
      the copies and pastes of the one imported; an entry that had the contents already has
      them all more, the first copy once more again. */
  ghost predicate ImportsTo(env: Env, a: Abs, next: u64, e: Entry, nonces: Nonces, r: Result<Appended, Error>, b: Abs)
    requires a.next <= next
  {
    match r
    case Err(_) => AppendsTo(env, a, next, NewOf(e), nonces, r, a) && b == a
    case Ok(New(id)) =>
      && id == next && !Present(a, e.contents)
      && b == Abs(a.items[id := Item(RecordFor(env, id, NewOf(e)),
                                     if e.copies == [] then multiset{e.copiedAt} else multiset(e.copies),
                                     multiset(e.pastes))], id + 1)
    case Ok(Again(id)) =>
      && IsNewest(a, Some(id), e.contents) && id in a.items
      && b == WithTimes(a, id, multiset{NewOf(e).copiedAt} + multiset(e.copies), multiset(e.pastes))
  }

  /** The other entries are as they were, and nothing deleted is back. */
  ghost predicate OthersKept(a: Abs, ids: set<u64>, x: Abs) {
    x.items - ids == a.items - ids && Follows(a, x)
  }

  /** An entry, whole, as the abstract history has it. */
  ghost predicate IsItem(e: Entry, item: Item) {
    && e.id == item.record.id && e.copiedAt == item.record.copiedAt
    && e.contents == item.record.contents && e.preview == item.record.preview
    && Sorted(e.copies, TimeLe) && multiset(e.copies) == item.copies
    && Sorted(e.pastes, TimeLe) && multiset(e.pastes) == item.pastes
  }

  /** One entry takes another's times, and the other is gone. */
  ghost function Superseded(a: Abs, id: u64, newId: u64, copies: multiset<i64>, pastes: multiset<i64>): Abs
    requires newId in a.items
  {
    Dropped(WithTimes(a, newId, copies, pastes), id)
  }

  /** Entry `id` with the first `k` of the copies and then the pastes. */
  ghost function WithFirst(a: Abs, id: u64, copies: seq<i64>, pastes: seq<i64>, k: nat): Abs
    requires id in a.items && k <= |copies| + |pastes|
  {
    var i := if k <= |copies| then k else |copies|;
    WithTimes(a, id, multiset(copies[..i]), multiset(pastes[..k - i]))
  }

  /** So many of the events as were recorded in order, and no others. */
  ghost predicate SomeEvents(a: Abs, id: u64, copies: seq<i64>, pastes: seq<i64>, x: Abs) {
    id in a.items && exists k: nat :: k <= |copies| + |pastes| && x == WithFirst(a, id, copies, pastes, k)
  }

  ghost predicate DuringEvents(env: Env, trace: seq<Files>, from: nat, a: Abs, id: u64, copies: seq<i64>,
                               pastes: seq<i64>)
  {
    During(env, trace, from, x => SomeEvents(a, id, copies, pastes, x))
  }

  ghost predicate EventsOrGone(a: Abs, id: u64, d: Abs, x: Abs) {
    OnlyEventsOf(a, id, x) || x == d
  }

  ghost predicate DuringEdit(env: Env, trace: seq<Files>, from: nat, a: Abs, id: u64, d: Abs) {
    During(env, trace, from, x => EventsOrGone(a, id, d, x))
  }

  /** The history once the append of an import or an edit is done. */
  ghost function AppendedTo(env: Env, a: Abs, e: NewEntry, r: Appended): Abs {
    match r
    case New(id) => if a.next <= id as nat then Added(a, RecordFor(env, id, e)) else a
    case Again(id) => if id in a.items then Noted(a, Event(id, e.copiedAt, COPIED)) else a
  }

  /** The events an import still has to record after its append. */
  function Others(e: Entry, r: Appended): seq<i64> {
    if r.New? && e.copies != [] then e.copies[1..] else e.copies
  }

  /** How far an import may have come: nothing yet, or the append and some of the events. */
  ghost predicate ImportCut(env: Env, a: Abs, e: Entry, r: Appended, x: Abs) {
    x == a || SomeEvents(AppendedTo(env, a, NewOf(e), r), r.id, Others(e, r), e.pastes, x)
  }

  ghost predicate DuringImport(env: Env, trace: seq<Files>, from: nat, a: Abs, e: Entry, r: Appended) {
    During(env, trace, from, x => ImportCut(env, a, e, r, x))
  }

  /** Part of an import into entry `id`: every other entry as it was, and of that one, if it
      was there, nothing lost. */
  ghost predicate ImportPart(a: Abs, id: u64, x: Abs) {
    OthersKept(a, {id}, x) && (id in a.items ==> id in x.items && NothingLost(a.items[id], x.items[id]))
  }

  ghost predicate IsLeast(x: i64, m: multiset<i64>) {
    x in m && forall y: i64 :: y in m ==> x <= y
  }

  function Edited(at: i64, contents: seq<Content>, preview: bytes): NewEntry {
    NewEntry(at, contents, Some(preview))
  }

  /** What an edit leaves of an item: the pastes, and the copies but for the first, in whose
      place is the time the entry was made. */
  ghost predicate EditedItem(env: Env, was: Item, next: u64, contents: seq<Content>, preview: bytes, now: Item) {
    && now.record == RecordFor(env, next, Edited(was.record.copiedAt, contents, preview))
    && now.pastes == was.pastes
    && exists first: i64 :: IsLeast(first, was.copies)
                            && now.copies == was.copies - multiset{first} + multiset{was.record.copiedAt}
  }

  ghost predicate ReplacesTo(env: Env, a: Abs, next: u64, id: u64, contents: seq<Content>, preview: bytes,
                             nonces: Nonces, r: Result<Option<u64>, Error>, b: Abs)
    requires a.next <= next
  {
    if id !in a.items then r == Ok(None) && b == a
    else
      match r
      case Err(e) => NewTo(env, a, next, Edited(a.items[id].record.copiedAt, contents, preview), nonces, Err(e), b)
      case Ok(None) => false
      case Ok(Some(newId)) =>
        && newId == next && next in b.items && b.next == next + 1
        && b.items - {next} == a.items - {id, next}
        && EditedItem(env, a.items[id], next, contents, preview, b.items[next])
  }

  // ---- What the calls come to, said of the entries' own parts ----

  /** This is the preview of an entry made: the one given, or what is made of the text, or
      empty where there is no text either. */
  ghost predicate IsPreview(env: Env, contents: seq<Content>, given: Option<bytes>, p: bytes) {
    match given
    case Some(own) => p == own
    case None =>
      && (forall text :: IsText(env, contents, text) ==> p == env.preview(text))
      && ((forall text :: !IsText(env, contents, text)) ==> p == [])
  }

  /** The item is of this id and time, with these contents and such a preview. */
  ghost predicate IsMade(env: Env, item: Item, id: u64, at: i64, contents: seq<Content>, given: Option<bytes>) {
    && item.record.id == id && item.record.copiedAt == at && item.record.contents == contents
    && IsPreview(env, contents, given, item.record.preview)
  }

  /** Entry `id` is there, and every other is as it was. */
  ghost predicate OnlyChanged(a: Abs, id: u64, b: Abs) {
    id in b.items && b.items - {id} == a.items - {id}
  }

  /** An append refused changes nothing; one answered as new leaves an entry of what was given,
      copied once; any other gives an entry there was one more copy. */
  ghost predicate AppendMeans(env: Env, a: Abs, next: u64, e: NewEntry, r: Result<Appended, Error>, b: Abs) {
    match r
    case Err(_) => b == a
    case Ok(New(id)) =>
      && id == next && b.next == id + 1 && OnlyChanged(a, id, b)
      && IsMade(env, b.items[id], id, e.copiedAt, e.contents, e.preview)
      && b.items[id].copies == multiset{e.copiedAt} && b.items[id].pastes == multiset{}
    case Ok(Again(id)) =>
      && id in a.items && b.next == a.next && OnlyChanged(a, id, b)
      && b.items[id].record == a.items[id].record && b.items[id].pastes == a.items[id].pastes
      && b.items[id].copies == a.items[id].copies + multiset{e.copiedAt}
  }

  /** The same of an import: a new entry has the contents, the preview and all the events of
      the one imported and was made at its first copy; one that was there keeps its own contents
      and preview. */
  ghost predicate ImportMeans(env: Env, a: Abs, next: u64, e: Entry, r: Result<Appended, Error>, b: Abs) {
    var first := if e.copies == [] then e.copiedAt else e.copies[0];
    match r
    case Err(_) => b == a
    case Ok(New(id)) =>
      && id == next && b.next == id + 1 && OnlyChanged(a, id, b)
      && IsMade(env, b.items[id], id, first, e.contents, Some(e.preview))
      && b.items[id].copies == (if e.copies == [] then multiset{first} else multiset(e.copies))
      && b.items[id].pastes == multiset(e.pastes)
    case Ok(Again(id)) =>
      && id in a.items && b.next == a.next && OnlyChanged(a, id, b)
      && b.items[id].record == a.items[id].record
      && b.items[id].pastes == a.items[id].pastes + multiset(e.pastes)
      && b.items[id].copies == a.items[id].copies + multiset{first} + multiset(e.copies)
  }

  /** An edit puts in the old entry's place one of the new contents and preview, made when the
      old one was. */
  ghost predicate ReplaceMeans(env: Env, a: Abs, next: u64, id: u64, contents: seq<Content>, preview: bytes,
                               r: Result<Option<u64>, Error>, b: Abs)
  {
    match r
    case Err(_) => id in a.items && b == a
    case Ok(None) => id !in a.items && b == a
    case Ok(Some(newId)) =>
      && newId == next && b.next == next + 1 && id in a.items && newId in b.items
      && b.items - {newId} == a.items - {id, newId}
      && IsMade(env, b.items[newId], newId, a.items[id].record.copiedAt, contents, Some(preview))
      && b.items[newId].pastes == a.items[id].pastes
  }

  lemma PreviewIs(env: Env, e: NewEntry)
    ensures IsPreview(env, e.contents, e.preview, PreviewOf(env, e))
  {
    hide PrimaryText, IsText;
    if e.preview.None? {
      forall text ensures PrimaryText(env, e.contents) == Some(text) <==> IsText(env, e.contents, text) {
        TextIs(env, e.contents, text);
      }
    }
  }

  lemma NewSays(env: Env, a: Abs, next: u64, e: NewEntry, nonces: Nonces, r: Result<Appended, Error>, b: Abs)
    requires a.next <= next && NewTo(env, a, next, e, nonces, r, b)
    ensures AppendMeans(env, a, next, e, r, b)
  {
    hide SizeOf, FrameSize, PreviewOf, IsPreview, Records.Sealed, Canonical;
    PreviewIs(env, e);
  }

  lemma AppendSays(env: Env, a: Abs, next: u64, e: NewEntry, nonces: Nonces, r: Result<Appended, Error>, b: Abs)
    requires a.next <= next && AppendsTo(env, a, next, e, nonces, r, b)
    ensures AppendMeans(env, a, next, e, r, b)
  {
    hide SizeOf, NewTo, Canonical, PreviewOf, Present, IsPreview;
    if SizeOf(e.contents) <= MAX_ENTRY && !Present(a, e.contents) {
      NewSays(env, a, next, e, nonces, r, b);
    }
  }

  lemma ImportSays(env: Env, a: Abs, next: u64, e: Entry, nonces: Nonces, r: Result<Appended, Error>, b: Abs)
    requires a.next <= next && ImportsTo(env, a, next, e, nonces, r, b)
    ensures ImportMeans(env, a, next, e, r, b)
  {
    hide AppendsTo, Canonical, PreviewOf, IsPreview, Present, IsNewest;
    PreviewIs(env, NewOf(e));
  }

  lemma ReplaceSays(env: Env, a: Abs, next: u64, id: u64, contents: seq<Content>, preview: bytes, nonces: Nonces,
                    r: Result<Option<u64>, Error>, b: Abs)
    requires a.next <= next && ReplacesTo(env, a, next, id, contents, preview, nonces, r, b)
    ensures ReplaceMeans(env, a, next, id, contents, preview, r, b)
  {
    hide SizeOf, FrameSize, Records.Sealed, Canonical, PreviewOf, IsPreview;
    if id in a.items { PreviewIs(env, Edited(a.items[id].record.copiedAt, contents, preview)); }
  }

  /** The records an edit takes at most. */
  ghost function EditSize(a: Abs, id: u64): nat {
    if id in a.items then 1 + |a.items[id].copies| + |a.items[id].pastes| else 1
  }

  /** How far an edit may have come: nothing yet, the new entry and some of its events, or
      all of it. */
  ghost predicate EditCut(env: Env, a: Abs, id: u64, newId: u64, contents: seq<Content>, preview: bytes, b: Abs, x: Abs)
    requires id in a.items
  {
    || x == a || x == b
    || OnlyEventsOf(AppendedTo(env, a, Edited(a.items[id].record.copiedAt, contents, preview), New(newId)), newId, x)
  }

  /** What stopping anywhere in an edit leaves. */
  ghost predicate ReplaceSafe(env: Env, trace: seq<Files>, from: nat, a: Abs, id: u64, contents: seq<Content>,
                              preview: bytes, r: Result<Option<u64>, Error>, b: Abs)
  {
    match r
    case Ok(Some(newId)) =>
      id in a.items && During(env, trace, from, x => EditCut(env, a, id, newId, contents, preview, b, x))
    case _ => Safe(env, trace, from, a, a)
  }

  function IdGe(a: u64, b: u64): bool {
    a >= b
  }

  const TERM_CACHE: nat := 0x10_0000

  datatype Appended = New(id: u64) | Again(id: u64)

  /** An entry, whole: every copy and every paste, ascending. */
  datatype Entry = Entry(id: u64, copiedAt: i64, copies: seq<i64>, pastes: seq<i64>, contents: seq<Content>,
                         preview: bytes)

  class History {
    const dir: Dir
    const env: Env
    const opts: Options
    var keycheck: bytes
    var nextFile: nat
    var nextId: nat
    var segments: seq<Segment>
    var active: Logs.Active
    var termCache: map<string, u64>
    ghost var written: Manifest

    /** What opening the directory now would find. */
    ghost function Here(): Found
      reads this, active, dir
    {
      Found(written, segments, active.View(), DataIn(dir.files, active.number))
    }

    ghost function Abs(): Abs
      reads this, active, dir
    {
      AbsIn(env, Here())
    }

    ghost predicate CacheGood()
      reads this
    {
      forall g :: g in termCache ==> termCache[g] == env.keys.trigram(g)
    }

    /** Memory agrees with the directory, and the directory holds nothing but this history. */
    ghost predicate Valid()
      reads this, active, dir
    {
      && active.dir == dir && active.crc == env.crc && active.number == written.active && active.Valid()
      && Holds(env, dir.files, Here()) && dir.files.Keys == Kept(written)
      && Sound(env, Here())
      && nextId == NextOf(Here()) && nextFile == written.nextFile && keycheck == written.keycheck
      && CacheGood() && Lawful(env.keys)
    }

    /** Entries on the disk, the dead included. */
    function StoredEntries(): nat
      reads this, active
    {
      CountRows(SealedParts(segments)) + |active.ids|
    }

    /** The numbers a manifest and a segment can take leave room for `k` records more. */
    predicate Room(k: nat)
      reads this, active
    {
      && nextFile + |segments| + 3 * k + 3 < TWO_64
      && nextId + k < TWO_64
      && |segments| + k + 1 < TWO_32
      && 10 * (StoredEntries() + k) < TWO_32
    }

    constructor Made(dir: Dir, env: Env, opts: Options, nextId: nat, segments: seq<Segment>, active: Logs.Active,
                     m: Manifest)
      ensures this.dir == dir && this.env == env && this.opts == opts && this.keycheck == m.keycheck
      ensures this.nextFile == m.nextFile && this.nextId == nextId && this.segments == segments
      ensures this.active == active && this.termCache == map[] && this.written == m
    {
      this.dir, this.env, this.opts, this.keycheck := dir, env, opts, m.keycheck;
      this.nextFile, this.nextId, this.segments, this.active := m.nextFile, nextId, segments, active;
      this.termCache, this.written := map[], m;
    }

    /** How much of the room a call of `n` records took. */
    twostate predicate Grown(n: nat)
      reads this, active
    {
      && nextFile + |segments| <= old(nextFile + |segments|) + 3 * n
      && nextId <= old(nextId) + n
      && |segments| <= old(|segments|) + n
      && StoredEntries() <= old(StoredEntries()) + n
    }

    /** Stopped after any file step since, the directory recovers to the history as it was
        or as it is. */
    twostate predicate Stepped(n: nat)
      reads this, active, dir
    {
      && Grown(n)
      && old(dir.trace) <= dir.trace
      && Safe(env, dir.trace, |old(dir.trace)|, old(Abs()), Abs())
    }

    // ---- Lookups ----

    lemma SoundHere()
      requires Valid()
      ensures Sound(env, Here()) && Here().mirror == active.View() && Here().log == active.Data() && active.Valid()
    {
      hide Sound, Holds, NextOf;
    }

    /** Whether a tombstone of `id` is anywhere. */
    method IsDeleted(id: u64) returns (r: bool)
      requires Valid()
      ensures r <==> id in Dead(Parts(Here()))
    {
      SoundHere();
      hide Valid, Sound, Dead, Parts;
      r := DeletedIn(env, active.tombstones, segments, id, Here());
    }

    /** What is stored of an entry, in the log or in whichever segment has it. */
    method BlobOf(id: u64) returns (r: Option<bytes>)
      requires Valid()
      ensures r.Some? <==> id in Blobs(Parts(Here()))
      ensures r.Some? ==> r.value == Blobs(Parts(Here()))[id]
    {
      SoundHere();
      hide Valid, Sound, Blobs, Parts;
      r := Lookups.BlobIn(env, active, segments, id, Here());
    }

    /** Whether `id` is an entry that was not deleted. */
    method Exists(id: u64) returns (r: bool)
      requires Valid()
      ensures r <==> id in Live(Parts(Here()))
    {
      var dead := IsDeleted(id);
      if dead { return false; }
      var b := BlobOf(id);
      r := b.Some?;
    }

    // ---- Records ----

    /** An event of a live entry. */
    method LogEvent(e: Event)
      requires Valid() && e.id in Live(Parts(Here())) && (e.kind == COPIED || e.kind == PASTED)
      modifies dir, active
      ensures Valid() && Stepped(0) && nextId == old(nextId)
      ensures e.id in old(Abs()).items && Abs() == Noted(old(Abs()), e)
    {
      hide Sound, Holds, Apply, FrameOf, Disk.Writing, Mirrors, Safe, AbsIn, Kept, NextOf, Live, EventPayload;
      EventWritten(env, Here(), e);
      ghost var m := active.View().(events := active.events + [e], records := active.records + 1);
      ghost var f, g := Here(), Longer(Here(), EventPayload(e), m, env.crc);
      active.AppendEvent(e);
      NothingYet(env, old(dir.trace), AbsIn(env, f), AbsIn(env, g));
      RecordSteps(env, old(dir.files), f, EventPayload(e), m, old(dir.trace), |old(dir.trace)|);
      assert Here() == g;
    }

    method LogTombstone(id: u64)
      requires Valid() && id in Live(Parts(Here()))
      modifies dir, active
      ensures Valid() && Stepped(0) && nextId == old(nextId)
      ensures Abs() == Dropped(old(Abs()), id)
    {
      hide Sound, Holds, Apply, FrameOf, Disk.Writing, Mirrors, Safe, AbsIn, Kept, NextOf, Live, DeletePayload;
      TombWritten(env, Here(), id);
      ghost var m := active.View().(tombstones := active.tombstones + {id}, records := active.records + 1);
      ghost var f, g := Here(), Longer(Here(), DeletePayload(id), m, env.crc);
      active.AppendTombstone(id);
      NothingYet(env, old(dir.trace), AbsIn(env, f), AbsIn(env, g));
      RecordSteps(env, old(dir.files), f, DeletePayload(id), m, old(dir.trace), |old(dir.trace)|);
      assert Here() == g;
    }

    // ---- Sealing and merging ----

    /** The log becomes a segment, and a new log is begun. */
    method SealLog()
      requires Valid() && Room(0)
      modifies this, dir
      ensures Valid() && Stepped(1) && fresh(active) && nextId == old(nextId) && Abs() == old(Abs())
      ensures |segments| == old(|segments|) + 1 && active.View() == EMPTY
      ensures StoredEntries() <= old(StoredEntries())
      ensures TombsServed(old(Here()), Here())
    {
      hide Holds, Sound, Safe, AbsIn, Mirrors, NextOf, Kept, SealedAs, SegGood, CountRows, Recovers, TombsServed;
      ghost var f := Here();
      SoundHere();
      NothingYet(env, dir.trace, AbsIn(env, f), AbsIn(env, f));
      NumbersAre(env, f);
      var n: nat := nextFile;
      var s := SealSegment(env, n, active.View(), DataIn(dir.files, active.number), segments, f);
      SealKeeps(env, f, s);
      ghost var g := SealedFound(f, s);
      var m := Manifest(n + 2, nextId, keycheck, n + 1, NumbersOf(segments) + [n]);
      var log := SealFiles(dir, env, s, m, active.number, f, |dir.trace|);
      CountAppend(segments, s);
      active, nextFile, segments := log, n + 2, segments + [s];
      written := m;
      assert Here() == g;
      TombsAreServed(env, f, g);
    }

    lemma EmptyLog()
      requires Valid() && active.records == 0
      ensures active.View() == EMPTY
    {
      hide Sound, Holds, NextOf, Replay;
      ReplayCounts(active.Data(), HEADER, EMPTY, env.crc);
    }

    /** The segments from `lo` on merged into one, the log being empty. */
    method Merge(lo: nat)
      requires Valid() && active.View() == EMPTY && lo < |segments|
      requires nextFile + 1 < TWO_64 && nextId < TWO_64 && 10 * StoredEntries() < TWO_32
      modifies this, dir
      ensures Valid() && Stepped(1) && nextId == old(nextId) && Abs() == old(Abs())
      ensures active == old(active) && active.View() == EMPTY
      ensures |segments| == lo + 1 && nextFile == old(nextFile) + 1 && StoredEntries() <= old(StoredEntries())
      ensures lo == 0 ==> Dead(Parts(Here())) == {}
      ensures TombsServed(old(Here()), Here())
    {
      hide Holds, Sound, Safe, AbsIn, Mirrors, NextOf, Kept, MergedAs, SegGood, CountRows, Recovers, Parts, TombsServed;
      ghost var f := Here();
      SoundHere();
      NothingYet(env, dir.trace, AbsIn(env, f), AbsIn(env, f));
      NumbersAre(env, f);
      var n: nat := nextFile;
      CountSplit(segments, lo);
      var s := MergeSegments(env, n, active.View(), segments, lo, f);
      MergeKeeps(env, f, s, lo);
      ghost var g := MergedFound(f, s, lo);
      var numbers := NumbersOf(segments);
      var m := Manifest(n + 1, nextId, keycheck, active.number, numbers[..lo] + [n]);
      MergeFiles(dir, env, s, m, numbers, f, lo, |dir.trace|);
      LogHeld(env, dir.files, g);
      CountAppend(segments[..lo], s);
      nextFile, segments := n + 1, segments[..lo] + [s];
      written := m;
      assert Here() == g;
      TombsAreServed(env, f, g);
      if lo == 0 { AllGone(f, s); }
    }

    /** As many merges as it takes until the segments at the end that are of one tier are fewer
        than the fanout; each merge, which takes one file number, leaves at least all but one
        of the fanout fewer segments. */
    method MergeTiers()
      requires Valid() && active.View() == EMPTY
      requires nextFile + |segments| < TWO_64 && nextId < TWO_64 && 10 * StoredEntries() < TWO_32
      modifies this, dir
      ensures Valid() && Stepped(0) && nextId == old(nextId) && Abs() == old(Abs())
      ensures active == old(active) && active.View() == EMPTY && StoredEntries() <= old(StoredEntries())
      ensures |segments| <= old(|segments|)
      ensures nextFile >= old(nextFile)
      ensures |segments| + (nextFile - old(nextFile)) * (Max(opts.fanout, 2) - 1) <= old(|segments|)
      ensures !Heaped(segments, opts.sealBytes, opts.fanout)
    {
      hide Valid, Safe, AbsIn, CountRows, Parts, TombsServed, Heaped, Piled;
      ghost var a := Abs();
      NothingYet(env, dir.trace, a, a);
      while true
        invariant Valid() && Abs() == a && nextId == old(nextId)
        invariant active == old(active) && active.View() == EMPTY && StoredEntries() <= old(StoredEntries())
        invariant |segments| <= old(|segments|) && nextFile + |segments| <= old(nextFile + |segments|)
        invariant nextFile >= old(nextFile)
        invariant |segments| + (nextFile - old(nextFile)) * (Max(opts.fanout, 2) - 1) <= old(|segments|)
        invariant old(dir.trace) <= dir.trace && Safe(env, dir.trace, |old(dir.trace)|, a, a)
        decreases |segments|
      {
        var lo, long := NewestRun(SizesOf(segments), opts.sealBytes, opts.fanout);
        HeapedIs(segments, opts.sealBytes, opts.fanout);
        if !long { break; }
        ghost var trace, merges := dir.trace, nextFile - old(nextFile);
        Merge(lo);
        SafeThen(env, trace, dir.trace, |old(dir.trace)|, a, a, a);
        Distribute(merges, 1, Max(opts.fanout, 2) - 1);
      }
    }

    /** The log, unless it is empty, becomes the newest segment. */
    method Seal()
      requires Valid() && Room(0)
      modifies this, dir
      ensures Valid() && Stepped(1) && nextId == old(nextId) && Abs() == old(Abs())
      ensures active == old(active) || fresh(active)
      ensures active.View() == EMPTY && StoredEntries() <= old(StoredEntries())
      ensures opts.autoMerge && old(active.records) > 0 ==> !Heaped(segments, opts.sealBytes, opts.fanout)
      ensures !opts.autoMerge && old(active.records) > 0 ==> |segments| == old(|segments|) + 1
      ensures old(active.records) == 0 ==>
              active == old(active) && segments == old(segments) && dir.trace == old(dir.trace)
    {
      hide Safe, AbsIn, CountRows, Parts, Sound, Holds, NextOf;
      ghost var a := Abs();
      if active.records == 0 {
        EmptyLog();
        NothingYet(env, dir.trace, a, a);
        return;
      }
      hide Valid;
      SealLog();
      if opts.autoMerge {
        ghost var trace := dir.trace;
        MergeTiers();
        SafeThen(env, trace, dir.trace, |old(dir.trace)|, a, a, a);
      }
    }

    method MaybeSeal()
      requires Valid() && Room(0)
      modifies this, dir
      ensures Valid() && Stepped(1) && nextId == old(nextId) && Abs() == old(Abs())
      ensures active == old(active) || fresh(active)
      ensures StoredEntries() <= old(StoredEntries())
      ensures old(active.len) >= opts.sealBytes ==> active.View() == EMPTY
      ensures old(active.len) < opts.sealBytes ==>
                active == old(active) && segments == old(segments) && dir.trace == old(dir.trace)
    {
      if active.len >= opts.sealBytes {
        hide Valid, Safe, AbsIn, CountRows;
        Seal();
      } else {
        NothingYet(env, dir.trace, Abs(), Abs());
      }
    }

    // ---- New entries ----

    /** A trigram's term, remembered. */
    method TrigramTerm(g: string) returns (h: u64)
      requires CacheGood()
      modifies this`termCache
      ensures CacheGood() && h == env.keys.trigram(g)
    {
      if g in termCache { return termCache[g]; }
      if |termCache| >= TERM_CACHE { termCache := map[]; }
      h := env.keys.trigram(g);
      termCache := termCache[g := h];
    }

    /** The terms of the searched text. */
    method TextTerms(text: string) returns (terms: seq<u64>)
      requires CacheGood()
      modifies this`termCache
      ensures CacheGood()
      ensures forall t :: t in terms <==> t in TrigramTerms(env, text)
    {
      var gs := CutTrigrams(Lower(text, env.lower));
      terms := [];
      for i := 0 to |gs|
        invariant CacheGood()
        invariant forall t :: t in terms <==> exists k :: 0 <= k < i && env.keys.trigram(gs[k]) == t
      {
        hide CacheGood;
        var h := TrigramTerm(gs[i]);
        ghost var was := terms;
        terms := terms + [h];
        forall t ensures t in terms <==> exists k :: 0 <= k < i + 1 && env.keys.trigram(gs[k]) == t {
          if t == env.keys.trigram(gs[i]) { assert t == terms[|was|]; }
        }
      }
      forall t ensures t in terms <==> t in TrigramTerms(env, text) {
        if t in TrigramTerms(env, text) {
          var g :| g in Trigrams(Lower(text, env.lower)) && t == env.keys.trigram(g);
          assert g in gs;
        }
        if t in terms {
          var k :| 0 <= k < |gs| && env.keys.trigram(gs[k]) == t;
          assert gs[k] in gs;
        }
      }
    }

    /** Every term of an entry of these contents, in order, once each. */
    method TermsOf(contents: seq<Content>) returns (terms: seq<u64>)
      requires CacheGood()
      modifies this`termCache
      ensures CacheGood()
      ensures Ascending(terms) && Members(terms) == IndexTerms(env, contents) && |terms| == |IndexTerms(env, contents)|
    {
      hide CacheGood, TrigramTerms, TypeTermsOf, PrimaryText;
      terms := [];
      var text := PrimaryText(env, contents);
      if text.Some? { terms := TextTerms(text.value); }
      var types := TypeTermList(env, contents);
      ghost var all := terms + types;
      terms := SortedSet(terms + types);
      SortedSetIs(all);
      AscendingSize(terms);
      forall t ensures t in Members(all) <==> t in IndexTerms(env, contents) {
        assert t in Members(all) <==> t in all;
      }
    }

    /** The record of a new entry whose frame is not too long. */
    method LogEntry(r: Record, terms: seq<u64>, blob: bytes)
      requires Valid() && r.id == nextId && nextId + 1 < TWO_64
      requires Ascending(terms) && Members(terms) == IndexTerms(env, r.contents) && |terms| < TWO_64
      requires |blob| + 8 * |terms| + 16 <= MAX_FRAME && EntryFor(env, blob, r) && Parsed(blob).Some?
      modifies dir, active, this`nextId
      ensures Valid() && Stepped(1) && nextId == old(nextId) + 1
      ensures Abs() == Added(old(Abs()), r) && StoredEntries() == old(StoredEntries()) + 1
    {
      hide Sound, Holds, Apply, FrameOf, Disk.Writing, Mirrors, Safe, AbsIn, Kept, NextOf, Parts, EntryPayload,
        IndexTerms, EntryFor, Parsed, MirrorWith, CountRows;
      ghost var f, files, trace := Here(), dir.files, dir.trace;
      ghost var payload := EntryPayload(terms, blob);
      ghost var m := MirrorWith(f, terms, blob);
      ghost var g := Longer(f, payload, m, env.crc);
      EntryFacts(env, f, terms, blob, r, payload, m);
      NothingYet(env, trace, AbsIn(env, f), AbsIn(env, g));
      RecordSteps(env, files, f, payload, m, trace, |trace|);
      PutRecord(active, terms, blob, m, payload);
      nextId := nextId + 1;
      assert Here() == g;
      assert dir.trace == trace + Disk.Writing(files, LogName(f.m.active), f.log, FrameOf(payload, env.crc));
      assert Safe(env, dir.trace, |trace|, AbsIn(env, f), Abs());
    }

    /** Append an entry without looking for the same contents. */
    method AppendNew(e: NewEntry, nonces: Nonces) returns (r: Result<Appended, Error>)
      requires Valid() && Room(1) && |e.contents| < TWO_64 && |PreviewOf(env, e)| < TWO_64
      modifies this, dir, active
      ensures Valid() && Stepped(1) && (active == old(active) || fresh(active))
      ensures old(Abs()).next == old(nextId) && NewTo(env, old(Abs()), old(nextId), e, nonces, r, Abs())
      ensures AppendMeans(env, old(Abs()), old(nextId), e, r, Abs())
      ensures r.Err? ==> Grown(0)
    {
      hide Valid, Safe, AbsIn, CountRows, CacheGood, Parts, IndexTerms, Canonical, Records.Sealed, PreviewOf, SizeOf,
        AppendMeans;
      LiveItems();
      var size := SizeOf(e.contents);
      if size > MAX_ENTRY {
        NothingYet(env, dir.trace, Abs(), Abs());
        r := Err(TooLarge(size));
        NewSays(env, Abs(), nextId, e, nonces, r, Abs());
        return;
      }
      var id := nextId;
      var rec := RecordFor(env, id, e);
      var terms := CachedTerms(e.contents);
      SealableRecord(e.contents);
      var blob := Records.Seal(env.keys, rec, nonces);
      if |blob| + |terms| * 8 + 16 > MAX_FRAME {
        NothingYet(env, dir.trace, Abs(), Abs());
        r := Err(TooLarge(|blob|));
        NewSays(env, Abs(), id, e, nonces, r, Abs());
        return;
      }
      LawfulKeys();
      SealedEntry(env, rec, nonces);
      LogEntry(rec, terms, blob);
      ghost var trace, a := dir.trace, Abs();
      MaybeSeal();
      SafeThen(env, trace, dir.trace, |old(dir.trace)|, old(Abs()), a, a);
      r := Ok(New(id));
      NewSays(env, old(Abs()), id, e, nonces, r, a);
    }

    lemma LawfulKeys()
      requires Valid()
      ensures Lawful(env.keys)
    {
      hide Sound, Holds, NextOf;
    }

    /** The terms, the cache as good as before. */
    method CachedTerms(contents: seq<Content>) returns (terms: seq<u64>)
      requires Valid()
      modifies this`termCache
      ensures Valid() && Abs() == old(Abs())
      ensures Ascending(terms) && Members(terms) == IndexTerms(env, contents) && |terms| == |IndexTerms(env, contents)|
    {
      hide Sound, Holds, NextOf, IndexTerms, AbsIn, Kept;
      terms := TermsOf(contents);
      assert Here() == old(Here());
    }

    /** An event, and a seal if the log has grown large. */
    method RecordEvent(kind: byte, id: u64, at: i64)
      requires Valid() && Room(0) && id in Live(Parts(Here())) && (kind == COPIED || kind == PASTED)
      modifies this, dir, active
      ensures Valid() && Stepped(1) && (active == old(active) || fresh(active))
      ensures nextId == old(nextId) && StoredEntries() <= old(StoredEntries())
      ensures id in old(Abs()).items && Abs() == Noted(old(Abs()), Event(id, at, kind))
    {
      hide Valid, Safe, AbsIn, CountRows, Parts, Live;
      LogEvent(Event(id, at, kind));
      ghost var trace, a := dir.trace, Abs();
      MaybeSeal();
      SafeThen(env, trace, dir.trace, |old(dir.trace)|, old(Abs()), a, a);
    }

    lemma LiveItems()
      requires Valid()
      ensures Live(Parts(Here())) == Abs().items.Keys
      ensures Abs().next == nextId
    {
      hide Sound, Holds, Blobs, Dead, ItemOf, NextOf;
    }

    method RecordCopy(id: u64, at: i64) returns (r: bool)
      requires Valid() && Room(0)
      modifies this, dir, active
      ensures Valid() && Stepped(1) && (active == old(active) || fresh(active))
      ensures nextId == old(nextId)
      ensures r <==> id in old(Abs()).items
      ensures Abs() == if r then Noted(old(Abs()), Event(id, at, COPIED)) else old(Abs())
    {
      hide Valid, Safe, AbsIn, CountRows, Parts, Live;
      LiveItems();
      var there := Exists(id);
      if !there {
        NothingYet(env, dir.trace, Abs(), Abs());
        return false;
      }
      RecordEvent(COPIED, id, at);
      r := true;
    }

    method RecordPaste(id: u64, at: i64) returns (r: bool)
      requires Valid() && Room(0)
      modifies this, dir, active
      ensures Valid() && Stepped(1) && (active == old(active) || fresh(active))
      ensures nextId == old(nextId)
      ensures r <==> id in old(Abs()).items
      ensures Abs() == if r then Noted(old(Abs()), Event(id, at, PASTED)) else old(Abs())
    {
      hide Valid, Safe, AbsIn, CountRows, Parts, Live;
      LiveItems();
      var there := Exists(id);
      if !there {
        NothingYet(env, dir.trace, Abs(), Abs());
        return false;
      }
      RecordEvent(PASTED, id, at);
      r := true;
    }

    /** Delete entry `id`, if there is one. */
    method Delete(id: u64) returns (r: bool)
      requires Valid() && Room(0)
      modifies this, dir, active
      ensures Valid() && Stepped(1) && (active == old(active) || fresh(active))
      ensures nextId == old(nextId)
      ensures r <==> id in old(Abs()).items
      ensures Abs() == if r then Dropped(old(Abs()), id) else old(Abs())
    {
      hide Valid, Safe, AbsIn, CountRows, Parts, Live;
      LiveItems();
      var there := Exists(id);
      if !there {
        NothingYet(env, dir.trace, Abs(), Abs());
        return false;
      }
      LogTombstone(id);
      ghost var trace, a := dir.trace, Abs();
      MaybeSeal();
      SafeThen(env, trace, dir.trace, |old(dir.trace)|, old(Abs()), a, a);
      r := true;
    }

    // ---- Reading ----

    lemma Opening(id: u64)
      requires Valid() && id in Blobs(Parts(Here()))
      ensures var b := Blobs(Parts(Here()))[id];
              && Opened(env.keys, b).Some? && RecordAt(env, b) == Opened(env.keys, b).value
              && RecordAt(env, b).id == id && Encodable(RecordAt(env, b).contents)
              && RecordAt(env, b).dedup == env.keys.dedup(Canonical(RecordAt(env, b).contents))
    {
      hide Sound, Holds, NextOf, Opened, Canonical, Encodable, Parts, Blobs;
      EntryOpens(env, Here(), id);
    }

    /** The contents of a stored entry; every entry of the history opens. */
    method ContentsOf(id: u64) returns (r: Result<Option<seq<Content>>, Error>)
      requires Valid()
      ensures r ==
              Ok(if id in Blobs(Parts(Here())) then Some(RecordAt(env, Blobs(Parts(Here()))[id]).contents) else None)
    {
      hide Valid, Parts, Blobs, Opened, Canonical, Encodable;
      var b := BlobOf(id);
      if b.Some? { Opening(id); }
      var record := OpenIfAny(env.keys, b);
      r := match record case Ok(Some(x)) => Ok(Some(x.contents)) case Ok(None) => Ok(None) case Err(e) => Err(e);
    }

    /** Entry `id`, decrypted; None exactly when it is not a live entry. */
    method Get(id: u64) returns (r: Result<Option<Entry>, Error>)
      requires Valid()
      ensures r.Ok? && (r.value.Some? <==> id in Abs().items)
      ensures r.value.Some? ==> IsItem(r.value.value, Abs().items[id])
    {
      hide Valid, Parts, Blobs, Dead, Events, Opened, Canonical, Encodable, Sorted, Times, Sound, NextOf;
      SoundHere();
      ItemHere(id);
      var dead := IsDeleted(id);
      if dead { return Ok(None); }
      var b := BlobOf(id);
      if b.Some? { Opening(id); }
      var copies, pastes := EventsIn(env, segments, active.events, id, Here());
      var record := OpenIfAny(env.keys, b);
      r := match record
      case Ok(Some(x)) => Ok(Some(Entry(id, x.copiedAt, copies, pastes, x.contents, x.preview)))
      case Ok(None) => Ok(None)
      case Err(e) => Err(e);
    }

    lemma ItemHere(id: u64)
      requires Valid()
      ensures id in Abs().items <==> id in Blobs(Parts(Here())) && id !in Dead(Parts(Here()))
      ensures id in Abs().items ==> Abs().items[id] == ItemOf(env, Parts(Here()), id)
    {
      hide Sound, Holds, Blobs, Dead, ItemOf, NextOf;
    }

    // ---- The same contents again ----

    /** Whether entry `id` is live and has these contents. */
    method SameAt(id: u64, contents: seq<Content>) returns (r: Result<bool, Error>)
      requires Valid() && Encodable(contents)
      ensures r == Ok(HasContents(Abs(), id, contents))
    {
      hide Valid, Parts, Blobs, Dead, Canonical, Encodable, Opened, Times, Events, AbsIn;
      ItemHere(id);
      var dead := IsDeleted(id);
      if dead { return Ok(false); }
      var was := ContentsOf(id);
      if id in Blobs(Parts(Here())) {
        Opening(id);
        CanonicalIsExact(RecordAt(env, Blobs(Parts(Here()))[id]).contents, contents);
      }
      r := match was
      case Ok(Some(x)) => Ok(Canonical(x) == Canonical(contents))
      case Ok(None) => Ok(false)
      case Err(e) => Err(e);
    }

    /** The ids of stored entries whose contents have the hash of these. */
    method Candidates(contents: seq<Content>) returns (same: seq<u64>)
      requires Valid() && Encodable(contents)
      ensures AllAmong(Abs(), same, contents)
    {
      hide Parts, Blobs, Dead, Canonical, Encodable, Opened, Times, Events, AbsIn, Sound, Holds, NextOf;
      SoundHere();
      same := SameHash(env, segments, active.dedup, env.keys.dedup(Canonical(contents)), Here());
      forall id | HasContents(Abs(), id, contents) ensures id in same {
        ItemHere(id);
        Opening(id);
        HasTheHash(env, Here(), id, contents);
      }
    }

    /** The newest live entry with these contents. */
    method NewestSame(contents: seq<Content>) returns (r: Result<Option<u64>, Error>)
      requires Valid() && Encodable(contents)
      ensures r.Ok? && IsNewest(Abs(), r.value, contents)
    {
      hide Valid, Abs, HasContents, Encodable, Sort, Sorted, Total;
      var found := Candidates(contents);
      var same := Sort(found, IdGe);
      Descending(found);
      for i := 0 to |same|
        invariant forall k :: 0 <= k < i ==> !HasContents(Abs(), same[k], contents)
      {
        var here := SameAt(same[i], contents);
        if here == Ok(true) {
          forall id | HasContents(Abs(), id, contents) ensures id <= same[i] {
            assert id in same;
          }
          return Ok(Some(same[i]));
        }
      }
      NoneAmong(Abs(), same, contents);
      r := Ok(None);
    }

    /** Record a copy: the newest live entry with these contents gets a copy event, and only
        where there is none is a new entry made. */
    method Append(e: NewEntry, nonces: Nonces) returns (r: Result<Appended, Error>)
      requires Valid() && Room(1) && |e.contents| < TWO_64 && |PreviewOf(env, e)| < TWO_64
      modifies this, dir, active
      ensures Valid() && Stepped(1) && (active == old(active) || fresh(active))
      ensures old(Abs()).next == old(nextId) && AppendsTo(env, old(Abs()), old(nextId), e, nonces, r, Abs())
      ensures AppendMeans(env, old(Abs()), old(nextId), e, r, Abs())
      ensures r.Err? ==> Grown(0)
    {
      hide Valid, Safe, AbsIn, CountRows, Parts, IndexTerms, Canonical, Records.Sealed, PreviewOf, SizeOf, Live,
        HasContents, AppendMeans;
      LiveItems();
      ghost var a, next := Abs(), nextId;
      var size := SizeOf(e.contents);
      if size > MAX_ENTRY {
        NothingYet(env, dir.trace, Abs(), Abs());
        r := Err(TooLarge(size));
        AppendSays(env, a, next, e, nonces, r, a);
        return;
      }
      SealableRecord(e.contents);
      var same := NewestSame(e.contents);
      if same.Ok? && same.value.Some? {
        HasItem(Abs(), same.value.value, e.contents);
        RecordEvent(COPIED, same.value.value, e.copiedAt);
        r := Ok(Again(same.value.value));
        AppendSays(env, a, next, e, nonces, r, Abs());
        return;
      }
      r := AppendNew(e, nonces);
    }

    /** Whether an entry with these contents is there; nothing is recorded. */
    method ContainsContents(contents: seq<Content>) returns (r: Result<bool, Error>)
      requires Valid() && Encodable(contents)
      ensures r == Ok(Present(Abs(), contents))
    {
      hide Valid, Abs, HasContents, Encodable;
      var same := Candidates(contents);
      for i := 0 to |same|
        invariant forall k :: 0 <= k < i ==> !HasContents(Abs(), same[k], contents)
      {
        var here := SameAt(same[i], contents);
        if here == Ok(true) { return Ok(true); }
      }
      r := Ok(false);
    }

    /** The events of one kind moved over from elsewhere, one after another. */
    method RecordEvents(kind: byte, id: u64, times: seq<i64>)
      requires Valid() && Room(|times|) && id in Abs().items && (kind == COPIED || kind == PASTED)
      modifies this, dir, active
      ensures Valid() && Grown(|times|) && (active == old(active) || fresh(active))
      ensures id in old(Abs()).items && nextId == old(nextId) && StoredEntries() <= old(StoredEntries())
      ensures Abs() == WithTimes(old(Abs()), id, if kind == COPIED then multiset(times) else multiset{},
                                 if kind == PASTED then multiset(times) else multiset{})
      ensures old(dir.trace) <= dir.trace
      ensures DuringEvents(env, dir.trace, |old(dir.trace)|, old(Abs()), id, OfKind(kind, COPIED, times),
                           OfKind(kind, PASTED, times))
    {
      hide Valid, Safe, DuringEvents, AbsIn, CountRows, Parts, Live;
      ghost var a, from := Abs(), |dir.trace|;
      NothingDuring(env, dir.trace, a, id, OfKind(kind, COPIED, times), OfKind(kind, PASTED, times));
      assert times[..0] == [];
      for i := 0 to |times|
        invariant Valid() && (active == old(active) || fresh(active)) && nextId == old(nextId)
        invariant Room(|times| - i) && Grown(i) && StoredEntries() <= old(StoredEntries())
        invariant Abs() == TimesNoted(a, id, kind, times[..i])
        invariant old(dir.trace) <= dir.trace
        invariant DuringEvents(env, dir.trace, from, a, id, OfKind(kind, COPIED, times), OfKind(kind, PASTED, times))
      {
        RecordNext(kind, id, times, i, a, from);
      }
      assert times[..|times|] == times;
    }

    /** The next of several events. */
    method RecordNext(kind: byte, id: u64, times: seq<i64>, i: nat, ghost a: Abs, ghost from: nat)
      requires Valid() && Room(0) && id in a.items && i < |times| && (kind == COPIED || kind == PASTED)
      requires Abs() == TimesNoted(a, id, kind, times[..i])
      requires DuringEvents(env, dir.trace, from, a, id, OfKind(kind, COPIED, times), OfKind(kind, PASTED, times))
      modifies this, dir, active
      ensures Valid() && Stepped(1) && (active == old(active) || fresh(active))
      ensures nextId == old(nextId) && StoredEntries() <= old(StoredEntries())
      ensures Abs() == TimesNoted(a, id, kind, times[..i + 1]) && old(dir.trace) <= dir.trace
      ensures DuringEvents(env, dir.trace, from, a, id, OfKind(kind, COPIED, times), OfKind(kind, PASTED, times))
    {
      hide Valid, Safe, During, AbsIn, CountRows, Parts, Live, SomeEvents;
      ghost var trace, was := dir.trace, Abs();
      ghost var like := x => SomeEvents(a, id, OfKind(kind, COPIED, times), OfKind(kind, PASTED, times), x);
      NotedNext(a, id, kind, times, i);
      NotedIsSome(a, id, kind, times, i);
      NotedIsSome(a, id, kind, times, i + 1);
      LiveItems();
      RecordEvent(kind, id, times[i]);
      SafeDuring(env, dir.trace, |trace|, was, Abs(), like);
      DuringThen(env, trace, dir.trace, from, like);
    }

    /** Copies, then pastes. */
    method AddEvents(id: u64, copies: seq<i64>, pastes: seq<i64>)
      requires Valid() && Room(|copies| + |pastes|) && id in Abs().items
      modifies this, dir, active
      ensures Valid() && Grown(|copies| + |pastes|) && (active == old(active) || fresh(active))
      ensures id in old(Abs()).items && nextId == old(nextId) && StoredEntries() <= old(StoredEntries())
      ensures Abs() == WithTimes(old(Abs()), id, multiset(copies), multiset(pastes))
      ensures old(dir.trace) <= dir.trace
      ensures DuringEvents(env, dir.trace, |old(dir.trace)|, old(Abs()), id, copies, pastes)
    {
      hide Valid, Safe, During, AbsIn, CountRows, Parts, Live, SomeEvents;
      ghost var a, from := Abs(), |dir.trace|;
      ghost var like := x => SomeEvents(a, id, copies, pastes, x);
      RecordEvents(COPIED, id, copies);
      ghost var b, trace := Abs(), dir.trace;
      DuringKinds(env, trace, from, x => SomeEvents(a, id, copies, [], x), like) by {
        forall x | SomeEvents(a, id, copies, [], x) ensures like(x) { SomeCopies(a, id, copies, pastes, x); }
      }
      TimesTwice(a, id, multiset(copies), multiset(pastes));
      RecordEvents(PASTED, id, pastes);
      DuringKinds(env, dir.trace, |trace|, x => SomeEvents(b, id, [], pastes, x), like) by {
        forall x | SomeEvents(b, id, [], pastes, x) ensures like(x) { SomePastes(a, id, copies, pastes, b, x); }
      }
      DuringThen(env, trace, dir.trace, from, like);
    }

    /** What another history has as an entry becomes one here. */
    method Import(e: Entry, nonces: Nonces) returns (r: Result<Appended, Error>)
      requires Valid() && Room(1 + |e.copies| + |e.pastes|) && |e.contents| < TWO_64 && |e.preview| < TWO_64
      modifies this, dir, active
      ensures Valid() && Grown(1 + |e.copies| + |e.pastes|) && (active == old(active) || fresh(active))
      ensures old(Abs()).next == old(nextId) && ImportsTo(env, old(Abs()), old(nextId), e, nonces, r, Abs())
      ensures ImportMeans(env, old(Abs()), old(nextId), e, r, Abs())
      ensures old(dir.trace) <= dir.trace
      ensures r.Ok? ==> DuringImport(env, dir.trace, |old(dir.trace)|, old(Abs()), e, r.value)
      ensures r.Err? ==> Safe(env, dir.trace, |old(dir.trace)|, Abs(), Abs())
    {
      hide Valid, Safe, DuringEvents, DuringImport, AbsIn, CountRows, Parts, Live, AppendsTo, ImportsTo, ImportCut,
        Others, WithTimes, AppendedTo, SomeEvents, ImportMeans;
      LiveItems();
      ghost var a, next, from := Abs(), nextId, |dir.trace|;
      var ne := NewOf(e);
      r := Append(ne, nonces);
      ghost var b, trace := Abs(), dir.trace;
      if r.Err? {
        ImportRefused(env, a, next, e, nonces, r, b);
        ImportSays(env, a, next, e, nonces, r, b);
        return;
      }
      var id := r.value.id;
      var skip := if r.value.New? && e.copies != [] then 1 else 0;
      ImportBegun(env, a, next, e, nonces, r, b);
      AddEvents(id, e.copies[skip..], e.pastes);
      ImportDuring(env, trace, dir.trace, from, a, e, r.value, b);
      ImportDone(env, a, next, e, nonces, r, b);
      ImportSays(env, a, next, e, nonces, r, Abs());
    }

    /** Every live entry has the copy it was made by. */
    lemma CopiesThere(id: u64)
      requires Valid() && id in Abs().items
      ensures Abs().items[id].record.copiedAt in Abs().items[id].copies
      ensures Abs().items[id].record.id == id && id < nextId
    {
      hide Sound, Holds, Blobs, Dead, Events, Times, Opened, Canonical, Parts, NextOf;
      SoundHere();
      ItemHere(id);
      FirstCopy(env, Here(), id);
    }

    /** The new entry's events, and then the old entry deleted. */
    method Supersede(id: u64, newId: u64, copies: seq<i64>, pastes: seq<i64>)
      requires Valid() && Room(|copies| + |pastes|) && id in Abs().items && newId in Abs().items && id != newId
      modifies this, dir, active
      ensures Valid() && Grown(|copies| + |pastes| + 1) && (active == old(active) || fresh(active))
      ensures newId in old(Abs()).items && nextId == old(nextId)
      ensures Abs() == Superseded(old(Abs()), id, newId, multiset(copies), multiset(pastes))
      ensures old(dir.trace) <= dir.trace
      ensures DuringEdit(env, dir.trace, |old(dir.trace)|, old(Abs()), newId, Abs())
    {
      hide Valid, Safe, During, AbsIn, CountRows, Parts, Live;
      ghost var a, from := Abs(), |dir.trace|;
      AddEvents(newId, copies, pastes);
      ghost var c, trace := Abs(), dir.trace;
      var _ := Delete(id);
      ghost var d := Abs();
      ghost var like := x => EventsOrGone(a, newId, d, x);
      StillTimes(a, newId, multiset(copies), multiset(pastes));
      DuringKinds(env, trace, from, x => SomeEvents(a, newId, copies, pastes, x), like) by {
        forall x | SomeEvents(a, newId, copies, pastes, x) ensures like(x) { SomeAreOnly(a, newId, copies, pastes, x); }
      }
      SafeDuring(env, dir.trace, |trace|, c, d, like);
      DuringThen(env, trace, dir.trace, from, like);
    }

    /** Edit an entry's contents and preview under a fresh id. */
    method Replace(id: u64, contents: seq<Content>, preview: bytes, nonces: Nonces)
      returns (r: Result<Option<u64>, Error>)
      requires Valid() && |contents| < TWO_64 && |preview| < TWO_64
      requires Room(EditSize(Abs(), id))
      modifies this, dir, active
      ensures Valid() && Grown(EditSize(old(Abs()), id)) && (active == old(active) || fresh(active))
      ensures old(Abs()).next == old(nextId)
      ensures ReplacesTo(env, old(Abs()), old(nextId), id, contents, preview, nonces, r, Abs())
      ensures ReplaceMeans(env, old(Abs()), old(nextId), id, contents, preview, r, Abs())
      ensures old(dir.trace) <= dir.trace
      ensures ReplaceSafe(env, dir.trace, |old(dir.trace)|, old(Abs()), id, contents, preview, r, Abs())
    {
      hide Valid, Safe, During, AbsIn, CountRows, Parts, Live, NewTo, EditedItem, OnlyEventsOf, Sorted, IsItem,
        ReplacesTo, ReplaceSafe, Superseded, RecordFor, ReplaceMeans;
      LiveItems();
      ghost var a, next, from := Abs(), nextId, |dir.trace|;
      var got := Get(id);
      if got.value.None? {
        NothingYet(env, dir.trace, a, a);
        NothingToEdit(env, a, next, id, contents, preview, nonces, dir.trace, from);
        r := Ok(None);
        ReplaceSays(env, a, next, id, contents, preview, nonces, r, a);
        return;
      }
      var was := got.value.value;
      CopiesThere(id);
      ItemTimes(was, a.items[id]);
      var e := Edited(was.copiedAt, contents, preview);
      var made := AppendNew(e, nonces);
      ghost var b, trace := Abs(), dir.trace;
      if made.Err? {
        EditRefused(env, a, next, id, contents, preview, nonces, made, b, dir.trace, from);
        r := Err(made.error);
        ReplaceSays(env, a, next, id, contents, preview, nonces, r, b);
        return;
      }
      var newId := made.value.id;
      NewMade(env, a, next, e, nonces, made, b);
      Supersede(id, newId, was.copies[1..], was.pastes);
      EditDone(env, a, next, id, was, contents, preview, nonces, b, Abs(), trace, dir.trace, from);
      r := Ok(Some(newId));
      ReplaceSays(env, a, next, id, contents, preview, nonces, r, Abs());
    }

    /** All that lives in one segment and nothing else: no log, no deleted entry, no
        tombstone. */
    method Compact()
      requires Valid() && Room(0)
      modifies this, dir
      ensures Valid() && Stepped(2) && nextId == old(nextId) && Abs() == old(Abs())
      ensures active == old(active) || fresh(active)
      ensures Dead(Parts(Here())) == {} && Blobs(Parts(Here())).Keys == Abs().items.Keys
      ensures |segments| <= 1 && active.View() == EMPTY
      ensures TombsServed(old(Here()), Here())
    {
      hide Valid, Safe, AbsIn, CountRows, Parts, Live, Sound, TombsServed;
      SoundHere();
      ghost var a, f := Abs(), Here();
      Seal();
      if |segments| > 1 || exists i :: 0 <= i < |segments| && segments[i].tombs != [] {
        ghost var trace := dir.trace;
        Merge(0);
        SafeThen(env, trace, dir.trace, |old(dir.trace)|, a, a, a);
      } else {
        NoTombs(Here());
      }
      AllLive();
      SoundHere();
      TombsAreServed(env, f, Here());
    }

    lemma AllLive()
      requires Valid() && Dead(Parts(Here())) == {}
      ensures Blobs(Parts(Here())).Keys == Abs().items.Keys
    {
      hide Valid, Parts, Blobs, Dead;
      LiveItems();
    }

    // ---- Search ----

    /** The query made ready. */
    method Prepare(q: Query, re: Option<Text.Hir>) returns (plan: Plan, ghost sure: seq<Cond>)
      requires Valid() && re == PatternAsked(env, q)
      ensures PlanFor(env, Here(), q, plan, sure)
    {
      SoundHere();
      hide Valid, Sound, EventFits, RunTerms, Parts;
      var words := LowerWords(env, q.textTerms);
      var hashes := RunHashes(env, words, re);
      var types := TypesAsked(env, q);
      var narrowed := hashes != [] || types.Some?;
      var times, deferred;
      times, deferred, sure := SplitConds(env, segments, active.events, CondsOf(q), narrowed, opts.timeSetMax, Here());
      plan := Plan(words, re, hashes, types, times, deferred);
    }

    /** The ids matching `q`, newest first, below `before` when given, at most `limit`:
        exactly what trying every entry in turn would find. */
    method Query(q: Query, before: Option<u64>, limit: nat) returns (r: Result<seq<u64>, Error>)
      requires Valid() && EngineRight(env) && nextId < TWO_64
      requires q.around.Some? ==> q.around.value.1 != I64_MIN
      ensures limit == 0 ==> r == Ok([])
      ensures limit > 0 && q.pattern.Some? && env.compile(q.pattern.value).None? ==> r == Err(BadPattern)
      ensures limit > 0 && (q.pattern.None? || env.compile(q.pattern.value).Some?) ==>
                && r.Ok? && r.value == Scan(env, q, Abs(), if before.Some? then before.value else TWO_64 - 1, limit)
                && IsAnswer(env, q, Abs(), if before.Some? then before.value else TWO_64 - 1, limit, r.value)
    {
      hide Sound, Holds, NextOf, PlanFor, Scan, Mirrors, Safe, AbsIn, EngineRight, IsAnswer;
      if limit == 0 { return Ok([]); }
      var re := None;
      if q.pattern.Some? {
        re := env.compile(q.pattern.value);
        if re.None? { return Err(BadPattern); }
      }
      var plan, sure := Prepare(q, re);
      SoundHere();
      var below := if before.Some? then before.value else TWO_64 - 1;
      var out := SearchParts(env, active, segments, plan, below, limit, Here(), q, sure);
      ScanAnswers(env, q, Abs(), below, limit);
      r := Ok(out);
    }
  }

  /** The newest segments, `fanout` of them or more and at least two, are by their sizes all of one
      tier. */
  ghost predicate Heaped(segments: seq<Segment>, sealBytes: nat, fanout: nat) {
    var f := if fanout >= 2 then fanout else 2;
    && |segments| >= f
    && forall k :: |segments| - f <= k < |segments| ==>
                     TierOf(segments[k].size, sealBytes, fanout) ==
                     TierOf(segments[|segments| - 1].size, sealBytes, fanout)
  }

  lemma HeapedIs(segments: seq<Segment>, sealBytes: nat, fanout: nat)
    ensures Piled(SizesOf(segments), sealBytes, fanout) <==> Heaped(segments, sealBytes, fanout)
  {
    hide TierOf;
    var sizes := SizesOf(segments);
    assert forall k :: 0 <= k < |segments| ==>
             TierAt(sizes, k, sealBytes, fanout) == TierOf(segments[k].size, sealBytes, fanout);
  }

  lemma NothingYet(env: Env, trace: seq<Files>, a: Abs, b: Abs)
    ensures Safe(env, trace, |trace|, a, b)
  {
    hide Recovers;
  }

  /** Everything merged into one: nothing dead is left, and no tombstone. */
  lemma AllGone(f: Found, s: Segment)
    requires f.m.nextFile + 1 < TWO_64 && NextOf(f) < TWO_64 && f.segments != [] && |f.m.segments| == |f.segments|
    requires f.mirror == EMPTY && MergedAs(f, s, 0)
    ensures Dead(Parts(MergedFound(f, s, 0))) == {}
  {
    hide NextOf, MapOf;
    var g := MergedFound(f, s, 0);
    assert PartsOf(f.segments, f.mirror, f.log)[..0] == [];
    assert SegFacts(s).tombs == {};
    forall id ensures id !in Dead(Parts(g)) {
      DeadWhere(g, id);
      assert g.segments == [s];
    }
  }

  method TypeTermList(env: Env, contents: seq<Content>) returns (terms: seq<u64>)
    ensures forall x :: x in terms <==> x in TypeTermsOf(env, contents)
  {
    hide TypeTerms;
    terms := [];
    for i := 0 to |contents|
      invariant forall x :: x in terms <==> x in TypeTermsOf(env, contents[..i])
    {
      var ts := TypeTerms(contents[i].mime);
      for k := 0 to |ts|
        invariant forall x :: x in terms <==>
                    x in TypeTermsOf(env, contents[..i]) || exists j :: 0 <= j < k && env.keys.typeTerm(ts[j]) == x
      {
        ghost var was := terms;
        terms := terms + [env.keys.typeTerm(ts[k])];
        forall x ensures x in terms <==>
                  x in TypeTermsOf(env, contents[..i]) || exists j :: 0 <= j < k + 1 && env.keys.typeTerm(ts[j]) == x {
          if x == env.keys.typeTerm(ts[k]) { assert x == terms[|was|]; }
        }
      }
      OneMoreType(env, contents, i);
    }
    assert contents[..|contents|] == contents;
  }

  lemma OneMoreType(env: Env, contents: seq<Content>, i: nat)
    requires i < |contents|
    ensures var ts := TypeTerms(contents[i].mime);
            forall x :: x in TypeTermsOf(env, contents[..i + 1]) <==>
              x in TypeTermsOf(env, contents[..i]) || exists j :: 0 <= j < |ts| && env.keys.typeTerm(ts[j]) == x
  {
    hide TypeTerms;
    var a, b, ts := contents[..i], contents[..i + 1], TypeTerms(contents[i].mime);
    forall x ensures x in TypeTermsOf(env, b) <==>
              x in TypeTermsOf(env, a) || exists j :: 0 <= j < |ts| && env.keys.typeTerm(ts[j]) == x {
      if x in TypeTermsOf(env, b) {
        var k, t :| 0 <= k < |b| && t in TypeTerms(b[k].mime) && x == env.keys.typeTerm(t);
        if k < i { assert t in TypeTerms(a[k].mime); }
      }
      if x in TypeTermsOf(env, a) {
        var k, t :| 0 <= k < |a| && t in TypeTerms(a[k].mime) && x == env.keys.typeTerm(t);
        assert t in TypeTerms(b[k].mime);
      }
      if j :| 0 <= j < |ts| && env.keys.typeTerm(ts[j]) == x {
        assert ts[j] in TypeTerms(b[i].mime);
      }
    }
  }

  lemma OneMoreId(m: Mirror, terms: seq<u64>, b: Blob, at: nat, len: nat)
    ensures |EntryAdded(m, terms, b, at, len).ids| == |m.ids| + 1
  {
    hide AddAll;
  }

  /** The log's append of an entry, its effect spelled out. */
  method PutRecord(active: Logs.Active, terms: seq<u64>, blob: bytes, ghost m: Mirror, ghost payload: bytes)
    requires active.Valid() && |terms| < TWO_64 && |blob| + 8 * |terms| + 16 <= MAX_FRAME && Parsed(blob).Some?
    requires active.ids != [] ==> active.ids[|active.ids| - 1] < Parsed(blob).value.id
    requires payload == EntryPayload(terms, blob)
    requires Apply(active.View(), payload, |active.Data()| + 8) == Some(m)
    modifies active, active.dir
    ensures active.Valid() && active.View() == m && active.ids == m.ids
    ensures var name, frame := LogName(active.number), FrameOf(payload, active.crc);
            && active.dir.files == old(active.dir.files)[name := LogFile(old(active.Data()) + frame)]
            && DataIn(active.dir.files, active.number) == old(active.Data()) + frame
            && active.dir.trace == old(active.dir.trace) +
                                   Disk.Writing(old(active.dir.files), name, old(active.Data()), frame)
  {
    hide Apply, FrameOf, Disk.Writing, EntryPayload, EntryAdded, Parsed, Mirrors;
    var _ := active.AppendEntry(terms, blob);
  }

  lemma EntryFacts(env: Env, f: Found, terms: seq<u64>, blob: bytes, r: Record, payload: bytes, m: Mirror)
    requires Sound(env, f) && EntryFor(env, blob, r) && r.id == NextOf(f)
    requires Ascending(terms) && Members(terms) == IndexTerms(env, r.contents)
    requires |terms| < TWO_64 && |blob| + 8 * |terms| + 16 <= MAX_FRAME && Parsed(blob).Some?
    requires payload == EntryPayload(terms, blob) && m == MirrorWith(f, terms, blob)
    ensures var g := Longer(f, payload, m, env.crc);
            && Apply(f.mirror, payload, |f.log| + 8) == Some(m) && 0 < |payload| <= MAX_FRAME
            && Sound(env, g) && NextOf(g) == r.id + 1
            && AbsIn(env, g) == Added(AbsIn(env, f), r)
    ensures |m.ids| == |f.mirror.ids| + 1
    ensures f.mirror.ids != [] ==> f.mirror.ids[|f.mirror.ids| - 1] < Parsed(blob).value.id
  {
    hide Sound, Apply, FrameOf, AbsIn, NextOf, EntryPayload, IndexTerms, EntryFor, Parsed, EntryAdded;
    EntryWritten(env, f, terms, blob, r);
    EntryIsNext(env, f, terms, blob, r);
    EntrySize(terms, blob, env.crc);
    OneMoreId(f.mirror, terms, Parsed(blob).value, |f.log| + 8 + |payload| - |blob|, |blob|);
  }

  lemma SealableRecord(contents: seq<Content>)
    requires SizeOf(contents) <= MAX_ENTRY
    ensures Encodable(contents)
  {
    hide SizeOf;
    SizeBounds(contents);
  }

  /** What was sealed is the entry it was sealed from. */
  lemma SealedEntry(env: Env, r: Record, nonces: Nonces)
    requires Lawful(env.keys) && |Records.Sealed(env.keys, r, nonces)| <= MAX_FRAME
    requires Encodable(r.contents) && r.dedup == env.keys.dedup(Canonical(r.contents))
    ensures EntryFor(env, Records.Sealed(env.keys, r, nonces), r)
    ensures Parsed(Records.Sealed(env.keys, r, nonces)).Some?
  {
    hide Records.Sealed, Opened, Parsed, Lawful, Canonical;
    SealOpens(env.keys, r, nonces);
  }

  /** An entry with these contents has the hash of these contents. */
  lemma HasTheHash(env: Env, f: Found, id: u64, contents: seq<Content>)
    requires id in Blobs(Parts(f)) && Encodable(contents)
    requires var r := RecordAt(env, Blobs(Parts(f))[id]);
             && Encodable(r.contents) && r.dedup == env.keys.dedup(Canonical(r.contents))
             && multiset(r.contents) == multiset(contents)
    ensures HasHash(env, Blobs(Parts(f)), env.keys.dedup(Canonical(contents)), id)
  {
    hide Parts, Blobs, Canonical, Encodable, Opened;
    CanonicalIsExact(RecordAt(env, Blobs(Parts(f))[id]).contents, contents);
  }

  lemma Descending(found: seq<u64>)
    ensures var same := Sort(found, IdGe);
            && (forall i, j :: 0 <= i < j < |same| ==> same[i] >= same[j])
            && (forall id :: id in found <==> id in same)
  {
    hide Sort;
    var same := Sort(found, IdGe);
    SortSorts(found, IdGe);
    forall id ensures id in found <==> id in same {
      assert id in multiset(found) <==> id in multiset(same);
    }
    forall i, j | 0 <= i < j < |same| ensures same[i] >= same[j] {
      assert IdGe(same[i], same[j]);
    }
  }

  lemma HasItem(a: Abs, id: u64, contents: seq<Content>)
    requires HasContents(a, id, contents)
    ensures id in a.items
  {
  }

  lemma NoneAmong(a: Abs, ids: seq<u64>, contents: seq<Content>)
    requires AllAmong(a, ids, contents) && forall k :: 0 <= k < |ids| ==> !HasContents(a, ids[k], contents)
    ensures !Present(a, contents)
  {
    hide HasContents;
  }

  ghost function TimesNoted(a: Abs, id: u64, kind: byte, times: seq<i64>): Abs
    requires id in a.items
  {
    WithTimes(a, id, if kind == COPIED then multiset(times) else multiset{},
              if kind == PASTED then multiset(times) else multiset{})
  }

  lemma Unchanged(a: Abs, id: u64)
    requires id in a.items
    ensures OnlyEventsOf(a, id, a)
    ensures WithTimes(a, id, multiset{}, multiset{}) == a
  {
    var item := a.items[id];
    assert item.(copies := item.copies + multiset{}, pastes := item.pastes + multiset{}) == item;
    assert a.items[id := item] == a.items;
  }

  function OfKind(kind: byte, wanted: byte, times: seq<i64>): seq<i64> {
    if kind == wanted then times else []
  }

  lemma NothingDuring(env: Env, trace: seq<Files>, a: Abs, id: u64, copies: seq<i64>, pastes: seq<i64>)
    requires id in a.items
    ensures DuringEvents(env, trace, |trace|, a, id, copies, pastes) && WithTimes(a, id, multiset{}, multiset{}) == a
  {
    hide Safe, During;
    Unchanged(a, id);
    assert WithFirst(a, id, copies, pastes, 0) == a;
    NothingYet(env, trace, a, a);
    SafeDuring(env, trace, |trace|, a, a, x => SomeEvents(a, id, copies, pastes, x));
  }

  lemma SomeCopies(a: Abs, id: u64, copies: seq<i64>, pastes: seq<i64>, x: Abs)
    requires SomeEvents(a, id, copies, [], x)
    ensures SomeEvents(a, id, copies, pastes, x)
  {
    var k: nat :| k <= |copies| && x == WithFirst(a, id, copies, [], k);
    assert pastes[..0] == [];
    assert WithFirst(a, id, copies, pastes, k) == x;
  }

  lemma SomePastes(a: Abs, id: u64, copies: seq<i64>, pastes: seq<i64>, b: Abs, x: Abs)
    requires id in a.items && b == WithTimes(a, id, multiset(copies), multiset{}) && SomeEvents(b, id, [], pastes, x)
    ensures SomeEvents(a, id, copies, pastes, x)
  {
    var k: nat :| k <= |pastes| && x == WithFirst(b, id, [], pastes, k);
    TimesTwice(a, id, multiset(copies), multiset(pastes[..k]));
    assert copies[..|copies|] == copies;
    assert WithFirst(a, id, copies, pastes, |copies| + k) == x;
  }

  lemma SomeAreOnly(a: Abs, id: u64, copies: seq<i64>, pastes: seq<i64>, x: Abs)
    requires SomeEvents(a, id, copies, pastes, x)
    ensures OnlyEventsOf(a, id, x)
  {
    var k: nat :| k <= |copies| + |pastes| && x == WithFirst(a, id, copies, pastes, k);
    var i := if k <= |copies| then k else |copies|;
    StillTimes(a, id, multiset(copies[..i]), multiset(pastes[..k - i]));
  }

  lemma NotedIsSome(a: Abs, id: u64, kind: byte, times: seq<i64>, i: nat)
    requires id in a.items && i <= |times| && (kind == COPIED || kind == PASTED)
    ensures SomeEvents(a, id, OfKind(kind, COPIED, times), OfKind(kind, PASTED, times),
                       TimesNoted(a, id, kind, times[..i]))
  {
    assert WithFirst(a, id, OfKind(kind, COPIED, times), OfKind(kind, PASTED, times), i) ==
           TimesNoted(a, id, kind, times[..i]);
  }

  lemma NotedNext(a: Abs, id: u64, kind: byte, times: seq<i64>, i: nat)
    requires id in a.items && i < |times| && (kind == COPIED || kind == PASTED)
    ensures id in TimesNoted(a, id, kind, times[..i]).items
    ensures Noted(TimesNoted(a, id, kind, times[..i]), Event(id, times[i], kind)) ==
            TimesNoted(a, id, kind, times[..i + 1])
  {
    assert times[..i + 1] == times[..i] + [times[i]];
    var m, m' := multiset(times[..i]), multiset(times[..i + 1]);
    assert m' == m + multiset{times[i]};
    var item := a.items[id];
    assert item.copies + m + multiset{times[i]} == item.copies + m';
    assert item.pastes + m + multiset{times[i]} == item.pastes + m';
    var x := TimesNoted(a, id, kind, times[..i]);
    var y := TimesNoted(a, id, kind, times[..i + 1]);
    assert x.items - {id} == a.items - {id};
    assert y.items - {id} == a.items - {id};
    assert Noted(x, Event(id, times[i], kind)).items == y.items;
  }

  lemma TimesTwice(a: Abs, id: u64, copies: multiset<i64>, pastes: multiset<i64>)
    requires id in a.items
    ensures var b := WithTimes(a, id, copies, multiset{});
            id in b.items && WithTimes(b, id, multiset{}, pastes) == WithTimes(a, id, copies, pastes)
  {
    var item := a.items[id];
    var b := WithTimes(a, id, copies, multiset{});
    assert item.copies + copies + multiset{} == item.copies + copies;
    assert item.pastes + multiset{} + pastes == item.pastes + pastes;
    assert WithTimes(b, id, multiset{}, pastes).items == WithTimes(a, id, copies, pastes).items;
  }

  lemma StillOthers(a: Abs, id: u64, b: Abs, x: Abs)
    requires ImportPart(a, id, b) && OnlyEventsOf(b, id, x)
    ensures ImportPart(a, id, x)
  {
    OnlyEventsFollow(a, b, id, x);
  }

  lemma OnlyEventsFollow(a: Abs, b: Abs, id: u64, x: Abs)
    requires Follows(a, b) && OnlyEventsOf(b, id, x)
    ensures Follows(a, x)
  {
    forall k | k in x.items && k < a.next ensures k in a.items {
      assert k == id || k in x.items - {id};
    }
  }

  lemma ImportRefused(env: Env, a: Abs, next: u64, e: Entry, nonces: Nonces, r: Result<Appended, Error>, b: Abs)
    requires a.next <= next && AppendsTo(env, a, next, NewOf(e), nonces, r, b) && r.Err?
    ensures ImportsTo(env, a, next, e, nonces, r, b) && b == a
  {
    hide SizeOf, FrameSize, RecordFor, IsNewest, Present;
  }

  /** The entry the events go to, after the append. */
  lemma ImportBegun(env: Env, a: Abs, next: u64, e: Entry, nonces: Nonces, r: Result<Appended, Error>, b: Abs)
    requires a.next <= next && AppendsTo(env, a, next, NewOf(e), nonces, r, b) && r.Ok?
    ensures r.value.id in b.items && b == AppendedTo(env, a, NewOf(e), r.value)
    ensures ImportCut(env, a, e, r.value, a) && ImportCut(env, a, e, r.value, b)
    ensures Others(e, r.value) == e.copies[if r.value.New? && e.copies != [] then 1 else 0..]
  {
    AppendIs(env, a, next, NewOf(e), nonces, r, b);
    hide *;
    var id, copies := r.value.id, Others(e, r.value);
    ImportFirst(b, id, copies, e.pastes);
    ImportOn(env, a, e, r.value, b);
    ImportNothing(env, a, e, r.value);
    OthersAre(e, r.value);
  }

  lemma AppendIs(env: Env, a: Abs, next: u64, e: NewEntry, nonces: Nonces, r: Result<Appended, Error>, b: Abs)
    requires a.next <= next && AppendsTo(env, a, next, e, nonces, r, b) && r.Ok?
    ensures r.value.id in b.items && b == AppendedTo(env, a, e, r.value)
  {
    hide SizeOf, FrameSize, Present, Canonical, PreviewOf;
  }

  lemma OthersAre(e: Entry, r: Appended)
    ensures Others(e, r) == e.copies[if r.New? && e.copies != [] then 1 else 0..]
  {
  }

  lemma ImportFirst(b: Abs, id: u64, copies: seq<i64>, pastes: seq<i64>)
    requires id in b.items
    ensures SomeEvents(b, id, copies, pastes, b)
  {
    Unchanged(b, id);
    assert WithFirst(b, id, copies, pastes, 0) == b;
  }

  lemma ImportNothing(env: Env, a: Abs, e: Entry, r: Appended)
    ensures ImportCut(env, a, e, r, a)
  {
    hide SomeEvents, AppendedTo;
  }

  lemma ImportOn(env: Env, a: Abs, e: Entry, r: Appended, x: Abs)
    requires SomeEvents(AppendedTo(env, a, NewOf(e), r), r.id, Others(e, r), e.pastes, x)
    ensures ImportCut(env, a, e, r, x)
  {
    hide SomeEvents, AppendedTo;
  }

  /** However far it came, an import changed one entry, which lost nothing. */
  lemma ImportCutKeeps(env: Env, a: Abs, e: Entry, r: Appended, x: Abs)
    requires if r.New? then a.next <= r.id as nat && r.id !in a.items else r.id in a.items
    requires ImportCut(env, a, e, r, x)
    ensures ImportPart(a, r.id, x)
  {
    hide SomeEvents, Canonical, PreviewOf;
    var b := AppendedTo(env, a, NewOf(e), r);
    assert b.items - {r.id} == a.items - {r.id} && Follows(a, b);
    assert r.id in a.items ==> a.items[r.id].copies <= b.items[r.id].copies;
    if x != a {
      SomeAreOnly(b, r.id, Others(e, r), e.pastes, x);
      StillOthers(a, r.id, b, x);
    }
  }

  lemma ImportDuring(env: Env, trace: seq<Files>, trace': seq<Files>, from: nat, a: Abs, e: Entry, r: Appended, b: Abs)
    requires Safe(env, trace, from, a, b) && trace <= trace' && b == AppendedTo(env, a, NewOf(e), r)
    requires ImportCut(env, a, e, r, a) && ImportCut(env, a, e, r, b)
    requires DuringEvents(env, trace', |trace|, b, r.id, Others(e, r), e.pastes)
    ensures DuringImport(env, trace', from, a, e, r)
  {
    hide Safe, During, ImportCut, SomeEvents, AppendedTo;
    var like := x => ImportCut(env, a, e, r, x);
    SafeDuring(env, trace, from, a, b, like);
    DuringKinds(env, trace', |trace|, x => SomeEvents(b, r.id, Others(e, r), e.pastes, x), like) by {
      forall x | SomeEvents(b, r.id, Others(e, r), e.pastes, x) ensures like(x) { ImportOn(env, a, e, r, x); }
    }
    DuringThen(env, trace, trace', from, like);
  }

  lemma ImportDone(env: Env, a: Abs, next: u64, e: Entry, nonces: Nonces, r: Result<Appended, Error>, b: Abs)
    requires a.next <= next && AppendsTo(env, a, next, NewOf(e), nonces, r, b) && r.Ok?
    requires r.value.id in b.items
    ensures var skip := if r.value.New? && e.copies != [] then 1 else 0;
            ImportsTo(env, a, next, e, nonces, r,
                      WithTimes(b, r.value.id, multiset(e.copies[skip..]), multiset(e.pastes)))
  {
    hide SizeOf, FrameSize, Present, Canonical, PreviewOf, WithTimes, Added;
    var id := r.value.id;
    if r.value.New? {
      ImportedNew(a, RecordFor(env, next, NewOf(e)), e);
    } else {
      ImportedAgain(a, id, NewOf(e).copiedAt, e.copies, multiset(e.pastes));
    }
  }

  lemma ImportedNew(a: Abs, rec: Record, e: Entry)
    requires a.next <= rec.id && rec.copiedAt == NewOf(e).copiedAt
    ensures var b := Added(a, rec);
            && rec.id in b.items
            && WithTimes(b, rec.id, multiset(e.copies[if e.copies != [] then 1 else 0..]), multiset(e.pastes)) ==
               Abs(a.items[rec.id := Item(rec, if e.copies == [] then multiset{e.copiedAt} else multiset(e.copies),
                                          multiset(e.pastes))], rec.id + 1)
  {
    var b := Added(a, rec);
    var id := rec.id;
    var c := WithTimes(b, id, multiset(e.copies[if e.copies != [] then 1 else 0..]), multiset(e.pastes));
    FirstAndRest(e.copies);
    assert multiset{} + multiset(e.pastes) == multiset(e.pastes);
    assert b.items[id].copies == multiset{NewOf(e).copiedAt};
    assert c.items == a.items[id := c.items[id]];
  }

  lemma ImportedAgain(a: Abs, id: u64, first: i64, copies: seq<i64>, pastes: multiset<i64>)
    requires id in a.items
    ensures var b := Noted(a, Event(id, first, COPIED));
            && id in b.items
            && WithTimes(b, id, multiset(copies[0..]), pastes) ==
               WithTimes(a, id, multiset{first} + multiset(copies), pastes)
  {
    assert copies[0..] == copies;
    var item := a.items[id];
    assert item.copies + multiset{first} + multiset(copies) == item.copies + (multiset{first} + multiset(copies));
    var b := Noted(a, Event(id, first, COPIED));
    assert WithTimes(b, id, multiset(copies), pastes).items ==
           WithTimes(a, id, multiset{first} + multiset(copies), pastes).items;
  }

  lemma FirstAndRest(s: seq<i64>)
    ensures s != [] ==> multiset{s[0]} + multiset(s[1..]) == multiset(s)
    ensures s == [] ==> multiset(s[0..]) == multiset{}
    ensures forall x: multiset<i64> :: x + multiset{} == x
  {
    if s != [] { assert s == [s[0]] + s[1..]; }
  }

  lemma FirstCopy(env: Env, f: Found, id: u64)
    requires Sound(env, f) && id in Blobs(Parts(f))
    ensures ItemOf(env, Parts(f), id).record.copiedAt in ItemOf(env, Parts(f), id).copies
    ensures ItemOf(env, Parts(f), id).record.id == id && id < NextOf(f)
  {
    hide Sound, Opened, Canonical, Blobs, Placed, Below, Events, Times, Encodable, Parts, NextOf;
    Ordered(env, f);
    Somewhere(f, id);
    var i :| 0 <= i < |Parts(f)| && id in Parts(f)[i].entries;
    InPart(env, f, i, id);
    assert GoodEntry(env, Parts(f)[i], id);
    var r := RecordAt(env, Blobs(Parts(f))[id]);
    var e := Event(id, r.copiedAt, COPIED);
    assert e in Parts(f)[i].events;
    SumsMembers(Parts(f));
    TimesCount(Events(Parts(f)), id, COPIED, r.copiedAt);
    assert e in Events(Parts(f)) && e in multiset(Events(Parts(f)));
  }

  lemma CopiesLength(was: Entry, item: Item)
    requires Sorted(was.copies, TimeLe) && multiset(was.copies) == item.copies && item.copies != multiset{}
    requires multiset(was.pastes) == item.pastes
    ensures |was.copies| == |item.copies| >= 1 && |was.pastes| == |item.pastes|
    ensures IsLeast(was.copies[0], item.copies)
    ensures multiset(was.copies[1..]) == item.copies - multiset{was.copies[0]}
  {
    assert was.copies != [];
    assert was.copies == [was.copies[0]] + was.copies[1..];
    forall y | y in item.copies ensures was.copies[0] <= y {
      assert y in was.copies;
      var k :| 0 <= k < |was.copies| && was.copies[k] == y;
      assert k == 0 || TimeLe(was.copies[0], was.copies[k]);
    }
    assert was.copies[0] in multiset(was.copies);
  }

  lemma NewRefused(env: Env, a: Abs, next: u64, e: NewEntry, nonces: Nonces, r: Result<Appended, Error>, b: Abs)
    requires a.next <= next && NewTo(env, a, next, e, nonces, r, b) && r.Err?
    ensures b == a
  {
    hide SizeOf, FrameSize, RecordFor;
  }

  lemma NewMade(env: Env, a: Abs, next: u64, e: NewEntry, nonces: Nonces, r: Result<Appended, Error>, b: Abs)
    requires a.next <= next && NewTo(env, a, next, e, nonces, r, b) && r.Ok?
    ensures r == Ok(New(next)) && next in b.items && b == Added(a, RecordFor(env, next, e))
  {
    hide SizeOf, FrameSize, Canonical, PreviewOf;
  }

  /** The new item, once the events are over. */
  lemma ReplaceEvents(env: Env, a: Abs, id: u64, next: u64, was: Entry, contents: seq<Content>, preview: bytes, b: Abs,
                      c: Abs)
    requires id in a.items && a.next <= next && id < next
    requires b == Added(a, RecordFor(env, next, Edited(a.items[id].record.copiedAt, contents, preview)))
    requires was.copies != [] && next in b.items
             && c == WithTimes(b, next, multiset(was.copies[1..]), multiset(was.pastes))
    requires IsLeast(was.copies[0], a.items[id].copies) && multiset(was.pastes) == a.items[id].pastes
    requires multiset(was.copies[1..]) == a.items[id].copies - multiset{was.copies[0]}
    ensures next in c.items && id in c.items && c.items[id] == a.items[id] && c.next == next + 1
    ensures EditedItem(env, a.items[id], next, contents, preview, c.items[next])
    ensures c.items - {id, next} == a.items - {id, next}
  {
    hide Canonical, PreviewOf, IsLeast;
    var item, now := a.items[id], c.items[next];
    assert now.copies == multiset{item.record.copiedAt} + (item.copies - multiset{was.copies[0]});
    assert multiset{} + multiset(was.pastes) == multiset(was.pastes);
  }

  lemma NothingToEdit(env: Env, a: Abs, next: u64, id: u64, contents: seq<Content>, preview: bytes, nonces: Nonces,
                      trace: seq<Files>, from: nat)
    requires a.next <= next && id !in a.items && Safe(env, trace, from, a, a)
    ensures ReplacesTo(env, a, next, id, contents, preview, nonces, Ok(None), a)
    ensures ReplaceSafe(env, trace, from, a, id, contents, preview, Ok(None), a)
  {
    hide Safe;
  }

  lemma ItemTimes(was: Entry, item: Item)
    requires IsItem(was, item) && item.record.copiedAt in item.copies
    ensures was.copiedAt == item.record.copiedAt
    ensures multiset(was.copies) == item.copies && multiset(was.pastes) == item.pastes && Sorted(was.copies, TimeLe)
    ensures |was.copies| == |item.copies| >= 1 && |was.pastes| == |item.pastes|
  {
    CopiesLength(was, item);
  }

  lemma EditRefused(env: Env, a: Abs, next: u64, id: u64, contents: seq<Content>, preview: bytes, nonces: Nonces,
                    made: Result<Appended, Error>, b: Abs, trace: seq<Files>, from: nat)
    requires a.next <= next && id in a.items && made.Err?
    requires NewTo(env, a, next, Edited(a.items[id].record.copiedAt, contents, preview), nonces, made, b)
    requires Safe(env, trace, from, a, b)
    ensures ReplacesTo(env, a, next, id, contents, preview, nonces, Err(made.error), b)
    ensures ReplaceSafe(env, trace, from, a, id, contents, preview, Err(made.error), b)
  {
    hide Safe, NewTo, RecordFor;
    NewRefused(env, a, next, Edited(a.items[id].record.copiedAt, contents, preview), nonces, made, b);
  }

  lemma EditDone(env: Env, a: Abs, next: u64, id: u64, was: Entry, contents: seq<Content>, preview: bytes,
                 nonces: Nonces, b: Abs, d: Abs, trace: seq<Files>, trace': seq<Files>, from: nat)
    requires a.next == next && id in a.items && id < next && IsItem(was, a.items[id]) && was.copies != []
    requires b == Added(a, RecordFor(env, next, Edited(a.items[id].record.copiedAt, contents, preview)))
    requires next in b.items && d == Superseded(b, id, next, multiset(was.copies[1..]), multiset(was.pastes))
    requires Safe(env, trace, from, a, b) && trace <= trace'
    requires DuringEdit(env, trace', |trace|, b, next, d)
    ensures ReplacesTo(env, a, next, id, contents, preview, nonces, Ok(Some(next)), d)
    ensures ReplaceSafe(env, trace', from, a, id, contents, preview, Ok(Some(next)), d)
  {
    hide Safe, During, NewTo, Canonical, PreviewOf, EditedItem, OnlyEventsOf, IsLeast, Sorted;
    CopiesLength(was, a.items[id]);
    var c := WithTimes(b, next, multiset(was.copies[1..]), multiset(was.pastes));
    ReplaceEvents(env, a, id, next, was, contents, preview, b, c);
    assert d.items - {next} == a.items - {id, next};
    var like := x => EditCut(env, a, id, next, contents, preview, d, x);
    Unchanged(b, next);
    SafeDuring(env, trace, from, a, b, like);
    DuringKinds(env, trace', |trace|, x => EventsOrGone(b, next, d, x), like);
    DuringThen(env, trace, trace', from, like);
  }

  lemma StillTimes(a: Abs, id: u64, copies: multiset<i64>, pastes: multiset<i64>)
    requires id in a.items
    ensures OnlyEventsOf(a, id, WithTimes(a, id, copies, pastes))
  {
  }

  lemma NoTombs(f: Found)
    requires f.mirror == EMPTY && forall i :: 0 <= i < |f.segments| ==> f.segments[i].tombs == []
    ensures Dead(Parts(f)) == {}
  {
    hide Dead, MapOf, Parts;
    forall id ensures id !in Dead(Parts(f)) {
      DeadWhere(f, id);
    }
  }

  /** An edit keeps every copy exactly when none was before the entry was made. */
  lemma EditKeepsCopies(env: Env, was: Item, next: u64, contents: seq<Content>, preview: bytes, now: Item)
    requires EditedItem(env, was, next, contents, preview, now) && was.record.copiedAt in was.copies
    ensures now.copies == was.copies <==> IsLeast(was.record.copiedAt, was.copies)
  {
    hide RecordFor;
    var at := was.record.copiedAt;
    var first: i64 :| IsLeast(first, was.copies) && now.copies == was.copies - multiset{first} + multiset{at};
    if first != at {
      assert now.copies[first] == was.copies[first] - 1;
    }
  }

  /** The copies an entry of these contents had before an import into `id`. */
  ghost function CopiesBefore(a: Abs, id: u64, contents: seq<Content>): multiset<i64> {
    if Present(a, contents) && id in a.items then a.items[id].copies else multiset{}
  }

  ghost function PastesBefore(a: Abs, id: u64, contents: seq<Content>): multiset<i64> {
    if Present(a, contents) && id in a.items then a.items[id].pastes else multiset{}
  }

  /** An import conserves the pastes always, and the copies exactly when the contents are new
      here and the entry was copied: one that was here gets the first copy twice, one never
      copied gets a copy. */
  lemma ImportKeepsCopies(env: Env, a: Abs, next: u64, e: Entry, nonces: Nonces, r: Result<Appended, Error>, b: Abs)
    requires a.next <= next && ImportsTo(env, a, next, e, nonces, r, b) && r.Ok?
    ensures var id := r.value.id;
            && id in b.items
            && b.items[id].pastes == PastesBefore(a, id, e.contents) + multiset(e.pastes)
            && (b.items[id].copies == CopiesBefore(a, id, e.contents) + multiset(e.copies)
                <==> !Present(a, e.contents) && e.copies != [])
  {
    hide RecordFor, AppendsTo;
    var id := r.value.id;
    if r.value.Again? {
      assert HasContents(a, id, e.contents);
      var item := a.items[id];
      assert |b.items[id].copies| == |item.copies| + 1 + |multiset(e.copies)|;
      assert |item.copies + multiset(e.copies)| == |item.copies| + |multiset(e.copies)|;
    } else {
      assert multiset{} + multiset(e.copies) == multiset(e.copies)
             && multiset{} + multiset(e.pastes) == multiset(e.pastes);
      assert e.copies == [] ==> multiset(e.copies) == multiset{};
    }
  }
}
